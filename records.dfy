/**
 * The property description collected from the form, the forcing of the
 * inapplicable fields for a plot, and the two one-row feature records
 * handed to the price and the ROI pipelines.
 */
module Records {
  import opened Cities
  import opened Baselines
  import opened Outcomes

  /** The property type picker's options, in order. */
  const PropertyTypeOptions: seq<string> := ["Apartment", "Villa", "Independent House", "Plot"]

  datatype PropertyType = Apartment | Villa | IndependentHouse | Plot {
    /** The option the picker shows; only a plot reads "Plot". */
    function Name(): (s: string)
      ensures s in PropertyTypeOptions
      ensures s == "Plot" <==> this == Plot
    {
      match this
      case Apartment => "Apartment"
      case Villa => "Villa"
      case IndependentHouse => "Independent House"
      case Plot => "Plot"
    }
  }

  /** Every property type, in picker order. */
  const PropertyTypes: seq<PropertyType> := [Apartment, Villa, IndependentHouse, Plot]

  /** Each property type's label is the picker option at its own position. */
  lemma PropertyTypeLabels()
    ensures |PropertyTypes| == |PropertyTypeOptions|
    ensures forall i :: 0 <= i < |PropertyTypes| ==> PropertyTypes[i].Name() == PropertyTypeOptions[i]
  {
  }

  /** The furnishing picker's options, in order. */
  const FurnishingOptions: seq<string> := ["Unfurnished", "Semi-Furnished", "Fully-Furnished"]

  datatype Furnishing = Unfurnished | SemiFurnished | FullyFurnished {
    /** The option the picker shows; only no furnishing reads "Unfurnished". */
    function Name(): (s: string)
      ensures s in FurnishingOptions
      ensures s == "Unfurnished" <==> this == Unfurnished
    {
      match this
      case Unfurnished => "Unfurnished"
      case SemiFurnished => "Semi-Furnished"
      case FullyFurnished => "Fully-Furnished"
    }
  }

  /** Every furnishing state, in picker order. */
  const FurnishingStates: seq<Furnishing> := [Unfurnished, SemiFurnished, FullyFurnished]

  /** Each furnishing state's label is the picker option at its own position. */
  lemma FurnishingLabels()
    ensures |FurnishingStates| == |FurnishingOptions|
    ensures forall i :: 0 <= i < |FurnishingStates| ==> FurnishingStates[i].Name() == FurnishingOptions[i]
  {
  }

  /** The parking picker's options, in order. */
  const ParkingOptions: seq<string> := ["None", "Open", "Covered"]

  datatype Parking = NoParking | OpenParking | CoveredParking {
    /** The option the picker shows; only no parking reads "None". */
    function Name(): (s: string)
      ensures s in ParkingOptions
      ensures s == "None" <==> this == NoParking
    {
      match this
      case NoParking => "None"
      case OpenParking => "Open"
      case CoveredParking => "Covered"
    }
  }

  /** Every parking type, in picker order. */
  const ParkingTypes: seq<Parking> := [NoParking, OpenParking, CoveredParking]

  /** Each parking type's label is the picker option at its own position. */
  lemma ParkingLabels()
    ensures |ParkingTypes| == |ParkingOptions|
    ensures forall i :: 0 <= i < |ParkingTypes| ==> ParkingTypes[i].Name() == ParkingOptions[i]
  {
  }

  /** Values the bedroom slider can produce. */
  type BhkChoice = b: int | 1 <= b <= 6 witness 2

  /** Values the built-up area slider can produce: 200 to 20000 square feet in steps of 50. */
  type AreaChoice = a: int | 200 <= a <= 20000 && a % 50 == 0 witness 1200

  /** Values the property age slider can produce, in years. */
  type AgeChoice = a: int | 0 <= a <= 100 witness 5

  /**
   * What the form's widgets hold. The bedroom, furnishing and parking
   * widgets are only consulted when the property is not a plot.
   */
  datatype Form = Form(
    city: string,
    propertyType: PropertyType,
    bhkSlider: BhkChoice,
    furnishingChoice: Furnishing,
    parkingChoice: Parking,
    builtupArea: AreaChoice,
    propertyAge: AgeChoice)

  /** The property description the prediction uses. */
  datatype Description = Description(
    city: string,
    propertyType: PropertyType,
    bhk: nat,
    builtupArea: int,
    propertyAge: int,
    furnishing: Furnishing,
    parking: Parking)

  /**
   * Reads the form: a plot always gets no bedrooms, no furnishing and no
   * parking; any other property takes the widgets' values.
   */
  function Collect(f: Form): (d: Description)
    ensures d.city == f.city && d.propertyType == f.propertyType
    ensures d.builtupArea == f.builtupArea && d.propertyAge == f.propertyAge
    ensures f.propertyType == Plot ==>
      d.bhk == 0 && d.furnishing == Unfurnished && d.parking == NoParking
    ensures f.propertyType != Plot ==>
      1 <= d.bhk <= 6 && d.bhk == f.bhkSlider &&
      d.furnishing == f.furnishingChoice && d.parking == f.parkingChoice
  {
    var isPlot := f.propertyType == Plot;
    Description(
      f.city,
      f.propertyType,
      if isPlot then 0 else f.bhkSlider as nat,
      f.builtupArea,
      f.propertyAge,
      if isPlot then Unfurnished else f.furnishingChoice,
      if isPlot then NoParking else f.parkingChoice)
  }

  /** Bedrooms are zero exactly for a plot. */
  lemma NoBedroomsIffPlot(f: Form)
    ensures Collect(f).bhk == 0 <==> f.propertyType == Plot
  {
  }

  /** For a plot the hidden widgets make no difference to the description. */
  lemma PlotIgnoresHiddenWidgets(f: Form, g: Form)
    requires f.propertyType == Plot
    requires g == f.(bhkSlider := g.bhkSlider, furnishingChoice := g.furnishingChoice,
                     parkingChoice := g.parkingChoice)
    ensures Collect(f) == Collect(g)
  {
  }

  /** A cell of a one-row data frame. Decimal values are held in tenths. */
  datatype Cell = Text(s: string) | Int(n: int) | Tenths(t: int)

  /** One named column of a one-row data frame. */
  datatype Column = Column(name: string, value: Cell)

  /** A one-row data frame: its columns in order. */
  type Row = seq<Column>

  /** The column names of a row, in order. */
  function Names(row: Row): (ns: seq<string>)
    ensures |ns| == |row|
    ensures forall i :: 0 <= i < |row| ==> ns[i] == row[i].name
  {
    if row == [] then [] else [row[0].name] + Names(row[1..])
  }

  /** The value of the first column called `name`, if there is one. */
  function Get(row: Row, name: string): (r: Option<Cell>)
    ensures r.None? <==> name !in Names(row)
  {
    if row == [] then None
    else if row[0].name == name then Some(row[0].value)
    else Get(row[1..], name)
  }

  /** A column whose name no earlier column has is what a lookup by that name finds. */
  lemma {:induction false} GetFirst(row: Row, i: nat)
    requires i < |row|
    requires forall j :: 0 <= j < i ==> row[j].name != row[i].name
    ensures Get(row, row[i].name) == Some(row[i].value)
  {
    if i > 0 {
      assert row[1..][i - 1] == row[i];
      GetFirst(row[1..], i - 1);
    }
  }

  /**
   * `df[name] = v` on a one-row frame: an existing column keeps its place
   * and takes the new value, a new column is added at the end.
   */
  function SetColumn(row: Row, name: string, v: Cell): (r: Row)
    ensures Names(r) == if name in Names(row) then Names(row) else Names(row) + [name]
  {
    if row == [] then [Column(name, v)]
    else if row[0].name == name then [Column(name, v)] + row[1..]
    else [row[0]] + SetColumn(row[1..], name, v)
  }

  /** After setting a column, it reads back the new value and every other column reads as before. */
  lemma {:induction false} SetColumnGet(row: Row, name: string, v: Cell, n: string)
    ensures Get(SetColumn(row, name, v), n) == if n == name then Some(v) else Get(row, n)
  {
    if row != [] && row[0].name != name {
      var rest := SetColumn(row[1..], name, v);
      assert ([row[0]] + rest)[1..] == rest;
      SetColumnGet(row[1..], name, v, n);
    } else if row != [] {
      assert ([Column(name, v)] + row[1..])[1..] == row[1..];
    }
  }

  /** Setting a column the row does not have yet appends it and leaves every other column as it was. */
  lemma {:induction false} SetNewColumnAppends(row: Row, name: string, v: Cell)
    requires name !in Names(row)
    ensures SetColumn(row, name, v) == row + [Column(name, v)]
  {
    if row != [] {
      assert row[0].name != name;
      SetNewColumnAppends(row[1..], name, v);
      assert [row[0]] + (row[1..] + [Column(name, v)]) == row + [Column(name, v)];
    }
  }

  /** The column layout the price pipeline's encoder was fitted on. */
  const PriceColumns: seq<string> :=
    ["City_Tier", "Property_Type", "BHK", "Builtup_Area_sqft", "Property_Age_years",
     "Furnishing", "Parking"]

  /** The two columns the ROI record adds to the price record. */
  const AvgPriceColumn: string := "Average_Area_Price_sqft"
  const YieldColumn: string := "Rental_Yield_percent"

  /** No two price columns share a name. */
  lemma PriceColumnsDistinct()
    ensures forall i, j :: 0 <= i < j < |PriceColumns| ==> PriceColumns[i] != PriceColumns[j]
  {
  }

  /** The price record: the description, in the encoder's column order, with its city replaced by the city's tier. */
  function PriceRow(d: Description): (r: Row)
    ensures Names(r) == PriceColumns
  {
    [Column("City_Tier", Text(TierOf(d.city).Name())),
     Column("Property_Type", Text(d.propertyType.Name())),
     Column("BHK", Int(d.bhk)),
     Column("Builtup_Area_sqft", Int(d.builtupArea)),
     Column("Property_Age_years", Int(d.propertyAge)),
     Column("Furnishing", Text(d.furnishing.Name())),
     Column("Parking", Text(d.parking.Name()))]
  }

  /** Every price column, looked up by its name, gives the value at its position. */
  lemma PriceRowLookup(d: Description, i: nat)
    requires i < |PriceColumns|
    ensures Get(PriceRow(d), PriceColumns[i]) == Some(PriceRow(d)[i].value)
  {
    var r := PriceRow(d);
    PriceColumnsDistinct();
    assert forall j :: 0 <= j < i ==> r[j].name != r[i].name by {
      assert forall j :: 0 <= j < |r| ==> r[j].name == PriceColumns[j];
    }
    GetFirst(r, i);
  }

  /** The description's fields, looked up by column name in its price record. */
  lemma PriceRowFields(d: Description)
    ensures Get(PriceRow(d), "City_Tier") == Some(Text(TierOf(d.city).Name()))
    ensures Get(PriceRow(d), "Property_Type") == Some(Text(d.propertyType.Name()))
    ensures Get(PriceRow(d), "BHK") == Some(Int(d.bhk))
    ensures Get(PriceRow(d), "Builtup_Area_sqft") == Some(Int(d.builtupArea))
    ensures Get(PriceRow(d), "Property_Age_years") == Some(Int(d.propertyAge))
    ensures Get(PriceRow(d), "Furnishing") == Some(Text(d.furnishing.Name()))
    ensures Get(PriceRow(d), "Parking") == Some(Text(d.parking.Name()))
  {
    PriceRowLookup(d, 0);
    PriceRowLookup(d, 1);
    PriceRowLookup(d, 2);
    PriceRowLookup(d, 3);
    PriceRowLookup(d, 4);
    PriceRowLookup(d, 5);
    PriceRowLookup(d, 6);
  }

  /**
   * The ROI record: a copy of the price record with the city's baseline
   * price and yield set as two more columns; looking up a city the tables
   * do not hold fails.
   */
  function RoiRow(priceRow: Row, city: string, tables: Tables): (r: Result<Row>)
    ensures r.Err? <==> city !in tables.avgPrice || city !in tables.yieldTenths
    ensures r.Err? ==> r.error == UnknownCity(city)
  {
    if city !in tables.avgPrice then Err(UnknownCity(city))
    else
      var withPrice := SetColumn(priceRow, AvgPriceColumn, Int(tables.avgPrice[city]));
      if city !in tables.yieldTenths then Err(UnknownCity(city))
      else Ok(SetColumn(withPrice, YieldColumn, Tenths(tables.yieldTenths[city])))
  }

  /**
   * The ROI record holds the city's two baselines, and every other column
   * reads as in the price record.
   */
  lemma RoiRowColumns(priceRow: Row, city: string, tables: Tables, n: string)
    requires city in tables.avgPrice && city in tables.yieldTenths
    ensures RoiRow(priceRow, city, tables).Ok?
    ensures Get(RoiRow(priceRow, city, tables).value, n)
         == if n == YieldColumn then Some(Tenths(tables.yieldTenths[city]))
            else if n == AvgPriceColumn then Some(Int(tables.avgPrice[city]))
            else Get(priceRow, n)
  {
    var withPrice := SetColumn(priceRow, AvgPriceColumn, Int(tables.avgPrice[city]));
    SetColumnGet(priceRow, AvgPriceColumn, Int(tables.avgPrice[city]), n);
    SetColumnGet(withPrice, YieldColumn, Tenths(tables.yieldTenths[city]), n);
  }

  /**
   * Built from a record without the two baseline columns, the ROI record is
   * that record, unchanged, followed by exactly the two baseline columns.
   */
  lemma RoiRowAppends(priceRow: Row, city: string, tables: Tables)
    requires city in tables.avgPrice && city in tables.yieldTenths
    requires AvgPriceColumn !in Names(priceRow) && YieldColumn !in Names(priceRow)
    ensures RoiRow(priceRow, city, tables)
         == Ok(priceRow + [Column(AvgPriceColumn, Int(tables.avgPrice[city])),
                           Column(YieldColumn, Tenths(tables.yieldTenths[city]))])
  {
    var a := Column(AvgPriceColumn, Int(tables.avgPrice[city]));
    var y := Column(YieldColumn, Tenths(tables.yieldTenths[city]));
    SetNewColumnAppends(priceRow, AvgPriceColumn, a.value);
    assert Names(priceRow + [a]) == Names(priceRow) + [AvgPriceColumn];
    SetNewColumnAppends(priceRow + [a], YieldColumn, y.value);
    assert priceRow + [a] + [y] == priceRow + [a, y];
  }

  /** The ROI record of a description is its price record followed by the two baselines. */
  lemma RoiRowExtendsPriceRow(d: Description, tables: Tables)
    requires d.city in tables.avgPrice && d.city in tables.yieldTenths
    ensures RoiRow(PriceRow(d), d.city, tables)
         == Ok(PriceRow(d) + [Column(AvgPriceColumn, Int(tables.avgPrice[d.city])),
                              Column(YieldColumn, Tenths(tables.yieldTenths[d.city]))])
  {
    assert AvgPriceColumn !in PriceColumns && YieldColumn !in PriceColumns;
    RoiRowAppends(PriceRow(d), d.city, tables);
  }

  /** With the start-up tables, the ROI record fails exactly for a city the picker does not offer. */
  lemma RoiRowFailsIffUnknownCity(priceRow: Row, city: string)
    ensures RoiRow(priceRow, city, ReferenceTables()).Err? <==> city !in AllCities
  {
  }

  /** A plot's price record always says zero bedrooms, unfurnished and no parking. */
  lemma PlotPriceRowForced(f: Form)
    requires f.propertyType == Plot
    ensures Get(PriceRow(Collect(f)), "BHK") == Some(Int(0))
    ensures Get(PriceRow(Collect(f)), "Furnishing") == Some(Text("Unfurnished"))
    ensures Get(PriceRow(Collect(f)), "Parking") == Some(Text("None"))
  {
    PriceRowFields(Collect(f));
  }
}
