/**
 * One evaluation: collect the form, build the two records, run the two
 * opaque pipelines and post-process their outputs into a reported price
 * and an investment outlook.
 */
module Valuation {
  import opened Cities
  import opened Baselines
  import opened Records
  import opened Outcomes

  /** No property is reported as worth less than this. */
  const MinPrice: real := 300000.0

  /**
   * `max(raw, 300000)` applied to the price pipeline's inverse-transformed
   * output: the floor when the raw value is below it, the raw value otherwise.
   */
  function ReportedPrice(raw: real): (p: real)
    ensures p >= MinPrice
    ensures raw >= MinPrice ==> p == raw
    ensures raw < MinPrice ==> p == MinPrice
  {
    if MinPrice > raw then MinPrice else raw
  }

  /** Flooring an already reported price changes nothing. */
  lemma ReportedPriceIdempotent(raw: real)
    ensures ReportedPrice(ReportedPrice(raw)) == ReportedPrice(raw)
  {
  }

  /** A larger raw value is never reported as a smaller price. */
  lemma ReportedPriceMonotone(a: real, b: real)
    requires a <= b
    ensures ReportedPrice(a) <= ReportedPrice(b)
  {
  }

  /** The investment outlook shown to the user. */
  datatype Outlook = HighRoi | LowMediumRoi {
    /** The label shown on the outlook card. */
    function Name(): (s: string)
      ensures s == "High ROI" <==> this == HighRoi
      ensures s == "Low–Medium ROI" <==> this == LowMediumRoi
    {
      match this
      case HighRoi => "High ROI"
      case LowMediumRoi => "Low–Medium ROI"
    }
  }

  /** The class the ROI pipeline predicts, read as an outlook: only class 1 is high. */
  function OutlookOf(roiClass: int): (o: Outlook)
    ensures o == HighRoi <==> roiClass == 1
    ensures o == LowMediumRoi <==> roiClass != 1
  {
    if roiClass == 1 then HighRoi else LowMediumRoi
  }

  /** The card reads "High ROI" exactly for class 1 and "Low–Medium ROI" for every other class. */
  lemma OutlookLabel(roiClass: int)
    ensures OutlookOf(roiClass).Name() == "High ROI" <==> roiClass == 1
    ensures OutlookOf(roiClass).Name() == "Low–Medium ROI" <==> roiClass != 1
  {
  }

  /** What one successful evaluation reports. */
  datatype Prediction = Prediction(price: real, outlook: Outlook)

  /**
   * One press of the evaluate button. The city's baselines are looked up
   * first, so an unknown city fails before either pipeline runs; a
   * pipeline that raises fails the evaluation as a whole.
   * `pricePipeline` is the price encoder, scaler, model and `expm1`
   * together; `roiPipeline` is the ROI encoder, scaler, model and `int`.
   */
  function Evaluate(f: Form, tables: Tables,
                    pricePipeline: Row -> Option<real>,
                    roiPipeline: Row -> Option<int>): (r: Result<Prediction>)
    ensures r.Err? && r.error.UnknownCity? <==>
      f.city !in tables.avgPrice || f.city !in tables.yieldTenths
    ensures r.Err? ==> r.error == UnknownCity(f.city) || r.error == PipelineFailure
    ensures r.Ok? ==> r.value.price >= MinPrice
    ensures r.Ok? <==>
      && f.city in tables.avgPrice && f.city in tables.yieldTenths
      && pricePipeline(PriceRow(Collect(f))).Some?
      && roiPipeline(RoiRow(PriceRow(Collect(f)), f.city, tables).value).Some?
  {
    var d := Collect(f);
    var priceRow := PriceRow(d);
    match RoiRow(priceRow, d.city, tables)
    case Err(e) => Err(e)
    case Ok(roiRow) =>
      match pricePipeline(priceRow)
      case None => Err(PipelineFailure)
      case Some(raw) =>
        match roiPipeline(roiRow)
        case None => Err(PipelineFailure)
        case Some(roiClass) => Ok(Prediction(ReportedPrice(raw), OutlookOf(roiClass)))
  }

  /**
   * A successful evaluation reports the floored output of the price
   * pipeline on the price record, and the outlook of the ROI pipeline's
   * class for the price record extended by the city's two baselines.
   */
  lemma EvaluateFeedsPipelines(f: Form, tables: Tables,
                               pricePipeline: Row -> Option<real>,
                               roiPipeline: Row -> Option<int>)
    requires Evaluate(f, tables, pricePipeline, roiPipeline).Ok?
    ensures var p := Evaluate(f, tables, pricePipeline, roiPipeline).value;
      var priceRow := PriceRow(Collect(f));
      var roiRow := priceRow + [Column(AvgPriceColumn, Int(tables.avgPrice[f.city])),
                                Column(YieldColumn, Tenths(tables.yieldTenths[f.city]))];
      && pricePipeline(priceRow).Some? && p.price == ReportedPrice(pricePipeline(priceRow).value)
      && roiPipeline(roiRow).Some? && (p.outlook == HighRoi <==> roiPipeline(roiRow).value == 1)
  {
    RoiRowExtendsPriceRow(Collect(f), tables);
  }

  /** With the start-up tables, an evaluation fails on its city exactly when the picker does not offer it. */
  lemma UnknownCityIffNotOffered(f: Form, pricePipeline: Row -> Option<real>,
                                 roiPipeline: Row -> Option<int>)
    ensures var r := Evaluate(f, ReferenceTables(), pricePipeline, roiPipeline);
      r.Err? && r.error.UnknownCity? <==> f.city !in AllCities
  {
  }

  /** For a plot, what the hidden bedroom, furnishing and parking widgets hold does not change the result. */
  lemma PlotEvaluationIgnoresHiddenWidgets(f: Form, g: Form, tables: Tables,
                                           pricePipeline: Row -> Option<real>,
                                           roiPipeline: Row -> Option<int>)
    requires f.propertyType == Plot
    requires g == f.(bhkSlider := g.bhkSlider, furnishingChoice := g.furnishingChoice,
                     parkingChoice := g.parkingChoice)
    ensures Evaluate(f, tables, pricePipeline, roiPipeline)
         == Evaluate(g, tables, pricePipeline, roiPipeline)
  {
    PlotIgnoresHiddenWidgets(f, g);
  }

  /** A Tier 1 city: Mumbai. */
  lemma MumbaiBaselines()
    ensures TierOf("Mumbai") == Tier1
    ensures ReferenceTables().avgPrice["Mumbai"] == 18000
    ensures ReferenceTables().yieldTenths["Mumbai"] == 35
  {
  }

  /** An offered city outside both tier lists: Ludhiana. */
  lemma LudhianaBaselines()
    ensures TierOf("Ludhiana") == Tier3
    ensures ReferenceTables().avgPrice["Ludhiana"] == 10000
    ensures ReferenceTables().yieldTenths["Ludhiana"] == 30
  {
  }
}
