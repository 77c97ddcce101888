/** Optional values and the failure result of an evaluation. */
module Outcomes {

  datatype Option<T> = None | Some(value: T)

  /** Why an evaluation failed. */
  datatype EvalError =
    | UnknownCity(city: string)  // a baseline table has no entry for the city
    | PipelineFailure            // an encoder, scaler or model raised

  /** The outcome of an evaluation step: a value, or the reason it failed. */
  datatype Result<T> = Ok(value: T) | Err(error: EvalError)
}
