# Property valuation core, modelled in Dafny

`property_ai.py` is a single-page property valuation form. Behind the form it
does four things:

- It classifies the chosen city as Tier 1, Tier 2 or Tier 3 by looking it up in
  two fixed city lists.
- It builds two baseline tables at start-up, keyed by city: average price per
  square foot and rental yield.
- It reads the form into a property description. For a plot, bedrooms are
  forced to 0, furnishing to "Unfurnished" and parking to "None".
- It builds a one-row price record and a one-row ROI record, which is the price
  record plus the city's two baselines. It feeds these to two pre-trained
  pipelines, reports the price pipeline's output with a floor of 300000, and
  shows "High ROI" exactly when the ROI pipeline predicts class 1.

The model has five modules:

- `Cities` (`cities.dfy`): the city lists and `TierOf`.
- `Baselines` (`baselines.dfy`): the tables. `BuildTables` and `OverwriteEach`
  are imperative methods with the source's fill-then-overwrite loops. They are
  proved equal to an independent reference definition, `ReferenceTables`, that
  gives each offered city its tier's baselines.
- `Records` (`records.dfy`): the form, the Plot forcing, and the records.
  A record is modelled as an ordered sequence of named columns.
  `df_roi["X"] = v` is modelled by `SetColumn`, which follows pandas: it
  overwrites a column that already exists, in place, and otherwise appends a
  new one.
- `Outcomes` (`outcomes.dfy`): `Option`, and the evaluation's `Result` with
  its two error kinds, `UnknownCity` and `PipelineFailure`.
- `Valuation` (`valuation.dfy`): the price floor, the outlook, and `Evaluate`,
  which is one press of the evaluate button.

Yields are integers in tenths of a percent (35 means 3.5 %), so no floating
point is needed. The two pipelines are function parameters that return
`Option`. `None` stands for an exception raised inside an encoder, a scaler or
a model.

Three facts about the code shape the model:

- Every baseline comes from the city's tier. No city has an entry of its own.
- The built-up area slider gives only multiples of 50 from 200 to 20000, so
  `AreaChoice` is exactly that set. The bedroom slider (1 to 6) and the age
  slider (0 to 100) are modelled the same way.
- `map_city_to_tier` accepts any string and falls back to Tier 3. An evaluation
  fails on its city only at the table lookups, which raise `KeyError` for a city
  the tables do not hold.

## Model

| member | source | states |
|---|---|---|
| Cities.Tier.Name | property_ai.py:30-36 | Tier 1 is labelled "Tier_1", Tier 2 "Tier_2" and Tier 3 "Tier_3", and no other string is a label |
| Cities.TierOfName | property_ai.py:30-36 | a city's label is "Tier_1" exactly for the Tier 1 list, "Tier_2" exactly for the Tier 2 list, and "Tier_3" for every other string |
| Cities.NameInjective | property_ai.py:30-36 | distinct tiers have distinct labels, so the encoder sees three distinct levels |
| Cities.GroupsDisjoint | property_ai.py:24-28 | no city is in two of the three groups (Tier 1, Tier 2, the smaller cities) |
| Cities.AllCitiesMembership | property_ai.py:28 | the picker's cities are exactly the union of the three groups |
| Cities.TierOf | property_ai.py:30-36 | total: Tier 1 exactly for the Tier 1 list, Tier 2 exactly for the Tier 2 list, Tier 3 for every other string |
| Cities.OfferedTier3IsSmaller | property_ai.py:28-36 | among offered cities, Tier 3 is exactly the six smaller cities |
| Baselines.TierPrice | property_ai.py:41-49 | the baseline price is 18000 exactly for Tier 1, 12000 exactly for Tier 2 and 10000 exactly for Tier 3 |
| Baselines.TierYieldTenths | property_ai.py:42-50 | the baseline yield is 3.5 % exactly for Tier 1 and 3.0 % for Tier 2 and Tier 3 |
| Baselines.Fill | property_ai.py:41-42 | the comprehension gives every listed city an entry, all with the same default, and no other key |
| Baselines.Overwrite | property_ai.py:44-50 | after an overwriting loop, the keys are the old keys plus the loop's keys; loop keys hold the new value and the rest keep the old one |
| Baselines.OverwriteKeepsKeys | property_ai.py:41-50 | a loop over keys the table already has adds no key |
| Baselines.OverwriteCommutes | property_ai.py:44-50 | two overwriting loops over disjoint key lists give the same table in either order |
| Baselines.FillThenOverwrite | property_ai.py:41-50 | fill then two overwrites: last loop's value on its keys, first loop's on the rest of its keys, the default elsewhere |
| Baselines.ByTierAsAssigned | property_ai.py:41-50 | a city's tier baseline equals the value the loops assign to it: the Tier 2 value, else the Tier 1 value, else the default |
| Baselines.ReferencePriceIsFillThenOverwrite | property_ai.py:41-49 | the per-tier price table is the one the comprehension and the two price assignments compute |
| Baselines.ReferenceYieldIsFillThenOverwrite | property_ai.py:42-50 | the per-tier yield table is the one the comprehension and the two yield assignments compute |
| Baselines.OverwriteEach | property_ai.py:44-50 | one loop that assigns both tables, city by city, gives exactly the Overwrite of each table |
| Baselines.BuildTables | property_ai.py:41-50 | the start-up tables equal the reference per-tier tables, and both have exactly the offered cities as keys |
| Baselines.ReferenceTablesByTier | property_ai.py:41-50 | an entry exists exactly for offered cities; price 18000 / 12000 / 10000 and yield 3.5 / 3.0 / 3.0 by tier |
| Baselines.LoopOrderIrrelevant | property_ai.py:44-50 | running the Tier 2 loop before the Tier 1 loop gives the same two tables |
| Records.PropertyType.Name | property_ai.py:121-126 | each type's label is one of the picker's options, and only a plot's label is "Plot", the string the plot test compares with |
| Records.PropertyTypeLabels | property_ai.py:121-124 | Apartment, Villa, Independent House and Plot are labelled with the picker's options, in picker order |
| Records.Furnishing.Name | property_ai.py:141-152 | each furnishing's label is one of the picker's options, and only Unfurnished reads "Unfurnished" |
| Records.FurnishingLabels | property_ai.py:149-152 | the three furnishing states are labelled with the picker's options, in picker order |
| Records.Parking.Name | property_ai.py:158-166 | each parking type's label is one of the picker's options, and only no parking reads "None" |
| Records.ParkingLabels | property_ai.py:166 | the three parking types are labelled with the picker's options, in picker order |
| Records.Collect | property_ai.py:126-175 | a plot gets 0 bedrooms, Unfurnished and no parking; any other property gets the widgets' values, with bedrooms in 1..6; city, type, area and age are passed through |
| Records.NoBedroomsIffPlot | property_ai.py:126-137 | the collected bedroom count is 0 if and only if the property is a plot |
| Records.PlotIgnoresHiddenWidgets | property_ai.py:126-166 | two plot forms that differ only in the hidden bedroom, furnishing and parking widgets give the same description |
| Records.Names | property_ai.py:186-194 | a record's column names, in order, one per column |
| Records.Get | property_ai.py:197-198 | a lookup by name finds a value exactly when some column has that name |
| Records.GetFirst | property_ai.py:197-198 | a lookup by a name that no earlier column has finds that column's value |
| Records.SetColumn | property_ai.py:197-198 | setting a column keeps the column order; a new name is appended at the end |
| Records.SetColumnGet | property_ai.py:197-198 | after setting a column, that column reads the new value and every other column reads as before |
| Records.SetNewColumnAppends | property_ai.py:196-198 | setting a column the record lacks is exactly appending it |
| Records.PriceColumnsDistinct | property_ai.py:186-194 | the seven price columns have distinct names |
| Records.PriceRow | property_ai.py:184-194 | the price record's columns are, in order, City_Tier, Property_Type, BHK, Builtup_Area_sqft, Property_Age_years, Furnishing, Parking |
| Records.PriceRowLookup | property_ai.py:186-194 | looking up each price column by name gives the value at its position |
| Records.PriceRowFields | property_ai.py:184-194 | by name, the price record holds the city's tier label, the type's label, the bedrooms, area, age, furnishing and parking of the description |
| Records.RoiRow | property_ai.py:196-198 | the ROI record fails, with the city as the error, exactly when a baseline table has no entry for the city |
| Records.RoiRowColumns | property_ai.py:196-198 | the ROI record holds the city's baseline price and yield; every other column reads as in the price record |
| Records.RoiRowAppends | property_ai.py:196-198 | for a record without the two baseline columns, the ROI record is that record followed by exactly those two columns |
| Records.RoiRowExtendsPriceRow | property_ai.py:184-198 | the ROI record of a description is its unchanged price record followed by the two baseline columns |
| Records.RoiRowFailsIffUnknownCity | property_ai.py:197-198 | with the start-up tables, the ROI record fails exactly for a city outside the picker's list |
| Records.PlotPriceRowForced | property_ai.py:126-194 | a plot's price record reads BHK 0, Furnishing "Unfurnished" and Parking "None" |
| Valuation.ReportedPrice | property_ai.py:202 | the reported price is at least 300000; it is the raw value when that is at least 300000, and 300000 otherwise |
| Valuation.ReportedPriceIdempotent | property_ai.py:202 | applying the floor to a reported price changes nothing |
| Valuation.ReportedPriceMonotone | property_ai.py:202 | a larger raw value never gives a smaller reported price |
| Valuation.OutlookOf | property_ai.py:208-209 | the outlook is High ROI if and only if the class is 1; every other integer gives Low–Medium ROI |
| Valuation.Outlook.Name | property_ai.py:209 | the high outlook is labelled "High ROI" and the other one "Low–Medium ROI", and no label is shared |
| Valuation.OutlookLabel | property_ai.py:208-209 | the card reads "High ROI" exactly when the class is 1, and "Low–Medium ROI" for every other integer |
| Valuation.Evaluate | property_ai.py:182-209 | fails on the city exactly when a table lacks it; other failures are pipeline failures; succeeds exactly when the city is known and both pipelines return; a success reports at least 300000 |
| Valuation.EvaluateFeedsPipelines | property_ai.py:184-209 | on success, the price is the floored price-pipeline output on the price record, and the outlook is High exactly when the ROI pipeline gives class 1 on the price record plus the two baselines |
| Valuation.UnknownCityIffNotOffered | property_ai.py:28-198 | with the start-up tables, an evaluation fails on its city exactly when the city is not one the picker offers |
| Valuation.PlotEvaluationIgnoresHiddenWidgets | property_ai.py:126-209 | for a plot, the hidden widgets' values do not change the evaluation's result |
| Valuation.MumbaiBaselines | property_ai.py:24-46 | Mumbai is Tier 1, with baseline price 18000 and yield 3.5 |
| Valuation.LudhianaBaselines | property_ai.py:28-42 | Ludhiana is Tier 3, with baseline price 10000 and yield 3.0 |

## Left out

- Loading the six pickled artifacts with `joblib` (property_ai.py:11-19): file I/O of opaque trained objects.
- The Streamlit page: CSS, markdown, columns and widgets (property_ai.py:55-177, 211-225). Only the values the widgets can produce are kept, as the `Form` datatype and its slider types.
- The encoders, the scalers and the positional column scaling (`iloc[:, [18,19]]`, `[18..21]`), the two models and `np.expm1` (property_ai.py:200-208): foreign scikit-learn, pandas and NumPy code. They appear only as the opaque parameters `pricePipeline` and `roiPipeline`. `Evaluate` applies the floor to the output of `pricePipeline`, so the order "inverse transform, then floor" is fixed. What the model cannot check is that `pricePipeline` applies `expm1` at all.
- The ±15 % confidence band, the gauge and the bar chart (property_ai.py:228-249): floating-point arithmetic used only for display.
- Displaying the caught exception (property_ai.py:251-252): modelled only as the `Err` result of `Evaluate`.
- Valuation.ReportedPrice: treats the raw price as a real number. A NaN from the model is not modelled; Python's `max` would pass a NaN through in place of the floor.
- Valuation.Evaluate: does not tell a failing price pipeline apart from a failing ROI pipeline; both give `PipelineFailure`, as the source's single catch-all does.
