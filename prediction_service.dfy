/**
 * The prediction service (services/prediction_service.py): the model it
 * loads once, the preprocessing that turns a request into the feature row
 * the model expects, the prediction record it returns, and the process-wide
 * holder that builds the service on first use.
 */
module Service {
  import opened Wrappers
  import opened Schema
  import opened Frame

  /** The year ages are measured from; fixed rather than read from a clock. */
  const ReferenceYear: int := 2026

  const OutletAge := "Outlet_Age"
  const YearColumn := Field.OutletEstablishmentYear.Name()
  const FatColumn := Field.ItemFatContent.Name()
  const SizeColumn := Field.OutletSize.Name()

  /** The ordinal codes of fat content and of outlet size. */
  const FatContentCodes: map<string, int> := map["Low Fat" := 0, "Regular" := 1]
  const OutletSizeCodes: map<string, int> := map["Small" := 0, "Medium" := 1, "High" := 2]

  /** The columns one-hot expansion is asked to replace, in this order. */
  const CategoricalColumns: seq<string> := [
    Field.ItemType.Name(), Field.OutletIdentifier.Name(),
    Field.OutletLocationType.Name(), Field.OutletType.Name()]

  const Currency := "USD"
  const PredictionNote := "XGBoost prediction – original scale"
  const ModelPath := "model/mart_sales_model.pkl"

  /** An optional request field as a cell: None is a missing value. */
  function OptionalText(o: Option<string>): Cell
  {
    if o.Some? then Str(o.value) else Missing
  }

  /** `input_data.dict()` as a one-row table: every field in declaration order. */
  function RequestRow(x: SalesInput): Row
  {
    [ (Field.ItemWeight.Name(), Real(x.itemWeight)),
      (Field.ItemFatContent.Name(), Str(x.itemFatContent)),
      (Field.ItemVisibility.Name(), Real(x.itemVisibility)),
      (Field.ItemMRP.Name(), Real(x.itemMRP)),
      (Field.OutletSize.Name(), Str(x.outletSize)),
      (Field.OutletLocationType.Name(), Str(x.outletLocationType)),
      (Field.OutletType.Name(), Str(x.outletType)),
      (Field.OutletEstablishmentYear.Name(), Int(x.outletEstablishmentYear)),
      (Field.ItemType.Name(), OptionalText(x.itemType)),
      (Field.OutletIdentifier.Name(), OptionalText(x.outletIdentifier)) ]
  }

  /**
   * The one-row table of a request: the ten fields in the order the record
   * declares them, an absent optional field as a missing value.
   */
  lemma RequestRowLayout(x: SalesInput)
    ensures |RequestRow(x)| == |Fields|
    ensures forall i :: 0 <= i < |Fields| ==> RequestRow(x)[i].0 == Fields[i].Name()
    ensures Lookup(RequestRow(x), Field.ItemType.Name()) ==
      Some(if x.itemType.None? then Missing else Str(x.itemType.value))
    ensures Lookup(RequestRow(x), Field.OutletIdentifier.Name()) ==
      Some(if x.outletIdentifier.None? then Missing else Str(x.outletIdentifier.value))
  {
    var r := RequestRow(x);
    assert forall i :: 0 <= i < 8 ==> |r[i].0| != |Field.ItemType.Name()|;
    assert forall i :: 0 <= i < 9 ==> |r[i].0| != |Field.OutletIdentifier.Name()|;
    LookupFirst(r, 8);
    LookupFirst(r, 9);
  }

  /**
   * `reference - column` on the one value of a column. Only the integer case
   * is reached: the year column always holds an integer.
   */
  function YearsSince(reference: int, c: Cell): Cell
  {
    match c
    case Int(i) => Int(reference - i)
    case Real(r) => Real(reference as real - r)
    case _ => Missing
  }

  /** `[c for c in columns if c in df.columns]`: the listed columns the table has, in list order. */
  function PresentColumns(columns: seq<string>, row: Row): (r: seq<string>)
    ensures forall c :: c in r <==> c in columns && c in Names(row)
    ensures |r| <= |columns|
  {
    if columns == [] then []
    else if columns[0] in Names(row) then [columns[0]] + PresentColumns(columns[1..], row)
    else PresentColumns(columns[1..], row)
  }

  /** The columns a request yields before alignment with the model, in order. */
  const BaseColumns: seq<string> := [
    Field.ItemWeight.Name(), Field.ItemFatContent.Name(), Field.ItemVisibility.Name(),
    Field.ItemMRP.Name(), Field.OutletSize.Name(), OutletAge]

  /**
   * What preprocessing yields for a request before alignment, written out
   * directly: the three numbers unchanged, the two ordinal codes, and the
   * outlet's age; nothing of the year, the tier, the outlet type, the item
   * type or the outlet identifier is left.
   */
  function BaseFeatures(x: SalesInput): Row
  {
    [ (Field.ItemWeight.Name(), Real(x.itemWeight)),
      (Field.ItemFatContent.Name(), MapValue(Str(x.itemFatContent), FatContentCodes)),
      (Field.ItemVisibility.Name(), Real(x.itemVisibility)),
      (Field.ItemMRP.Name(), Real(x.itemMRP)),
      (Field.OutletSize.Name(), MapValue(Str(x.outletSize), OutletSizeCodes)),
      (OutletAge, Int(ReferenceYear - x.outletEstablishmentYear)) ]
  }

  /** Python's truth value of the model's feature names: present and not empty. */
  predicate HasNames(featureNames: Option<seq<string>>)
  {
    featureNames.Some? && featureNames.value != []
  }

  /** The feature row of a request: the base features, aligned with the model's names when it has any. */
  function Features(x: SalesInput, featureNames: Option<seq<string>>): (r: Row)
    ensures Names(r) == if HasNames(featureNames) then featureNames.value else BaseColumns
  {
    BaseFeaturesColumns(x);
    if HasNames(featureNames) then Reindex(BaseFeatures(x), featureNames.value)
    else BaseFeatures(x)
  }

  /** What loading the model file yields: the model and, when readable, its feature names. */
  datatype Artifact = Artifact(model: Row -> real, featureNames: Option<seq<string>>)

  datatype LoadError = ModelNotFound(path: string)

  class PredictionService {
    /** The trained model, as the function from a feature row to its prediction. */
    const model: Row -> real
    const featureNames: Option<seq<string>>

    constructor (artifact: Artifact)
      ensures model == artifact.model && featureNames == artifact.featureNames
    {
      model := artifact.model;
      featureNames := artifact.featureNames;
    }

    /**
     * Builds the feature row of a request step by step, as the service does
     * to its one-row table.
     */
    method Preprocess(x: SalesInput) returns (df: Row)
      ensures df == Features(x, featureNames)
      ensures HasNames(featureNames) ==> Names(df) == featureNames.value
      ensures !HasNames(featureNames) ==> Names(df) == BaseColumns
    {
      df := RequestRow(x);
      AgeStep(x);
      df := Set(df, OutletAge, YearsSince(ReferenceYear, Lookup(df, YearColumn).value));
      YearStep(x);
      df := Drop(df, [YearColumn]);
      FatStep(x);
      df := Set(df, FatColumn, MapValue(Lookup(df, FatColumn).value, FatContentCodes));
      SizeStep(x);
      df := Set(df, SizeColumn, MapValue(Lookup(df, SizeColumn).value, OutletSizeCodes));
      ExpandStep(x);
      var present := PresentColumns(CategoricalColumns, df);
      df := GetDummies(df, present, true);
      BaseFeaturesColumns(x);
      if HasNames(featureNames) {
        df := Reindex(df, featureNames.value);
      }
    }

    /** Predicts the sales of a request and wraps the figure with its currency and note. */
    method Predict(x: SalesInput) returns (p: SalesPrediction)
      ensures p.predictedSales == model(Features(x, featureNames))
      ensures p.currency == "USD" && p.note == PredictionNote
    {
      var features := Preprocess(x);
      p := SalesPrediction(model(features), Currency, PredictionNote);
    }
  }

  /**
   * The process-wide holder of the service (the module-level instance of
   * services/prediction_service.py): the service is built on the first
   * request for it and the same object is handed out from then on.
   */
  class ServiceHolder {
    var instance: PredictionService?

    constructor ()
      ensures instance == null
    {
      instance := null;
    }

    /**
     * Returns the service, building it from the loaded artifact when there
     * is none yet. The artifact stands for what reading the model file
     * yields; None is a missing file, which fails and leaves no service.
     */
    method GetService(artifact: Option<Artifact>) returns (r: Result<PredictionService, LoadError>)
      modifies this
      ensures old(instance) != null ==> r == Ok(old(instance)) && instance == old(instance)
      ensures old(instance) == null && artifact.Some? ==>
        && r.Ok? && fresh(r.value) && instance == r.value
        && r.value.model == artifact.value.model
        && r.value.featureNames == artifact.value.featureNames
      ensures old(instance) == null && artifact.None? ==>
        r == Err(ModelNotFound(ModelPath)) && instance == null
    {
      if instance == null {
        if artifact.None? {
          return Err(ModelNotFound(ModelPath));
        }
        instance := new PredictionService(artifact.value);
      }
      r := Ok(instance);
    }
  }

  /**
   * Asking twice gives the same service: once one has been built, later
   * requests return that object whatever a new load would have produced.
   */
  method GetServiceTwice(holder: ServiceHolder, first: Option<Artifact>, second: Option<Artifact>)
    returns (a: Result<PredictionService, LoadError>, b: Result<PredictionService, LoadError>)
    modifies holder
    ensures a.Ok? ==> b == a
    ensures old(holder.instance) != null ==> a == b == Ok(old(holder.instance))
  {
    a := holder.GetService(first);
    b := holder.GetService(second);
  }

  // What preprocessing promises, stated on Features.

  /**
   * The feature row column by column: without usable feature names the
   * base columns pass through; with them, a named base column keeps its
   * value, a named column preprocessing did not produce is 0, and nothing
   * unnamed survives.
   */
  lemma FeatureLookup(x: SalesInput, featureNames: Option<seq<string>>, m: string)
    requires HasNames(featureNames) ==> Distinct(featureNames.value)
    ensures Lookup(Features(x, featureNames), m) ==
      if HasNames(featureNames) && m !in featureNames.value then None
      else if m in BaseColumns then Lookup(BaseFeatures(x), m)
      else if HasNames(featureNames) then Some(Int(0))
      else None
  {
    BaseFeaturesColumns(x);
    LookupFound(BaseFeatures(x), m);
    if HasNames(featureNames) {
      ReindexLookup(BaseFeatures(x), featureNames.value, m);
    }
  }

  /**
   * Every one-hot feature the model expects is 0, whatever the request's
   * tier, outlet type, item type or outlet identifier: with one row,
   * drop_first leaves no indicator column to carry a 1.
   */
  lemma OneHotFeaturesAreZero(x: SalesInput, names: seq<string>, m: string)
    requires Distinct(names) && m in names && m !in BaseColumns
    ensures Lookup(Features(x, Some(names)), m) == Some(Int(0))
  {
    FeatureLookup(x, Some(names), m);
  }

  /** Requests that differ only in tier, outlet type, item type or identifier get the same features. */
  lemma CategoricalFieldsIgnored(x: SalesInput, y: SalesInput, featureNames: Option<seq<string>>)
    requires x.itemWeight == y.itemWeight && x.itemFatContent == y.itemFatContent
    requires x.itemVisibility == y.itemVisibility && x.itemMRP == y.itemMRP
    requires x.outletSize == y.outletSize && x.outletEstablishmentYear == y.outletEstablishmentYear
    ensures Features(x, featureNames) == Features(y, featureNames)
  {
  }

  /**
   * The year and the four categorical columns are gone after preprocessing;
   * one of them is present only when the model names it, and then it is 0.
   */
  lemma RawColumnsRemoved(x: SalesInput, featureNames: Option<seq<string>>, m: string)
    requires HasNames(featureNames) ==> Distinct(featureNames.value)
    requires m == YearColumn || m in CategoricalColumns
    ensures Lookup(Features(x, featureNames), m) ==
      if HasNames(featureNames) && m in featureNames.value then Some(Int(0)) else None
  {
    SameLengthNamesDiffer();
    assert m !in BaseColumns;
    FeatureLookup(x, featureNames, m);
  }

  /** Weight, visibility and price reach the model unchanged whenever their column is kept. */
  lemma NumbersPassThrough(x: SalesInput, featureNames: Option<seq<string>>)
    requires HasNames(featureNames) ==> Distinct(featureNames.value)
    ensures var kept := (m: string) => !HasNames(featureNames) || m in featureNames.value;
      && (kept(Field.ItemWeight.Name()) ==>
            Lookup(Features(x, featureNames), Field.ItemWeight.Name()) == Some(Real(x.itemWeight)))
      && (kept(Field.ItemVisibility.Name()) ==>
            Lookup(Features(x, featureNames), Field.ItemVisibility.Name()) == Some(Real(x.itemVisibility)))
      && (kept(Field.ItemMRP.Name()) ==>
            Lookup(Features(x, featureNames), Field.ItemMRP.Name()) == Some(Real(x.itemMRP)))
  {
    FeatureLookup(x, featureNames, Field.ItemWeight.Name());
    FeatureLookup(x, featureNames, Field.ItemVisibility.Name());
    FeatureLookup(x, featureNames, Field.ItemMRP.Name());
    LookupFirst(BaseFeatures(x), 0);
    LookupFirst(BaseFeatures(x), 2);
    LookupFirst(BaseFeatures(x), 3);
  }

  /** For a valid request fat content is always encoded: Low Fat is 0 and Regular is 1. */
  lemma FatContentEncoding(x: SalesInput)
    requires Valid(x)
    ensures Lookup(BaseFeatures(x), FatColumn) ==
      Some(Int(if x.itemFatContent == "Low Fat" then 0 else 1))
  {
    LookupFirst(BaseFeatures(x), 1);
  }

  /**
   * For a valid request outlet size is always encoded: Small is 0, Medium 1
   * and High 2, in the order of the sizes.
   */
  lemma OutletSizeEncoding(x: SalesInput)
    requires Valid(x)
    ensures Lookup(BaseFeatures(x), SizeColumn) ==
      Some(Int(if x.outletSize == "Small" then 0 else if x.outletSize == "Medium" then 1 else 2))
    ensures OutletSizeCodes["Small"] < OutletSizeCodes["Medium"] < OutletSizeCodes["High"]
  {
    BaseFeaturesSize(x);
    SizeCodes(x.outletSize);
  }

  lemma BaseFeaturesSize(x: SalesInput)
    ensures Lookup(BaseFeatures(x), SizeColumn) == Some(MapValue(Str(x.outletSize), OutletSizeCodes))
  {
    SameLengthNamesDiffer();
    LookupFirst(BaseFeatures(x), 4);
  }

  lemma SizeCodes(s: string)
    requires s in OutletSizes
    ensures MapValue(Str(s), OutletSizeCodes) == Int(if s == "Small" then 0 else if s == "Medium" then 1 else 2)
  {
  }

  /**
   * The outlet's age is the reference year minus the establishment year; for
   * a valid request it lies between -4 and 46, and it is negative exactly
   * for the years after 2026 that the schema still accepts.
   */
  lemma AgeOfValidRequest(x: SalesInput)
    requires Valid(x)
    ensures Lookup(BaseFeatures(x), OutletAge) == Some(Int(2026 - x.outletEstablishmentYear))
    ensures -4 <= 2026 - x.outletEstablishmentYear <= 46
    ensures 2026 - x.outletEstablishmentYear < 0 <==> 2027 <= x.outletEstablishmentYear <= 2030
  {
    var r := BaseFeatures(x);
    assert forall i :: 0 <= i < 5 ==> |r[i].0| != |OutletAge|;
    LookupFirst(r, 5);
  }

  // One-hot expansion as it was evidently meant to work.

  /**
   * The feature row when the request's own category is kept: expansion
   * without drop_first, then alignment with the model's names, which drops
   * whichever indicator the model treats as the baseline.
   */
  function CorrectedFeatures(x: SalesInput, featureNames: Option<seq<string>>): (r: Row)
    ensures HasNames(featureNames) ==> Names(r) == featureNames.value
  {
    CategoricalPositions(x);
    var expanded := GetDummies(EncodedRow(x), CategoricalColumns, false);
    if HasNames(featureNames) then Reindex(expanded, featureNames.value) else expanded
  }

  /** The indicator the model has for the request's outlet type. */
  function OutletTypeIndicator(x: SalesInput): string
  {
    Field.OutletType.Name() + "_" + x.outletType
  }

  /**
   * As written, the model's indicator for the request's own outlet type is
   * 0, so the outlet type never reaches the model.
   */
  lemma OutletTypeIndicatorAsWritten(x: SalesInput, names: seq<string>)
    requires Distinct(names) && OutletTypeIndicator(x) in names
    ensures Lookup(Features(x, Some(names)), OutletTypeIndicator(x)) == Some(Int(0))
  {
    var m := OutletTypeIndicator(x);
    assert m[7] == 'T';
    assert BaseColumns[4][7] == 'S' && BaseColumns[5][7] == 'A';
    assert m !in BaseColumns;
    OneHotFeaturesAreZero(x, names, m);
  }

  /** With the corrected expansion the same indicator is 1. */
  lemma OutletTypeIndicatorCorrected(x: SalesInput, names: seq<string>)
    requires Distinct(names) && OutletTypeIndicator(x) in names
    ensures Lookup(CorrectedFeatures(x, Some(names)), OutletTypeIndicator(x)) == Some(Int(1))
  {
    var m := OutletTypeIndicator(x);
    var itemType := Indicators(CategoricalColumns[0], OptionalText(x.itemType), false);
    var identifier := Indicators(CategoricalColumns[1], OptionalText(x.outletIdentifier), false);
    var tier := Indicators(CategoricalColumns[2], Str(x.outletLocationType), false);
    var outletType := Indicators(CategoricalColumns[3], Str(x.outletType), false);
    ExpandedWithoutDropFirst(x);
    var expanded := GetDummies(EncodedRow(x), CategoricalColumns, false);
    OutletTypeIndicatorFirst(x);
    assert outletType == [(m, Int(1))];
    LookupConcat(BaseFeatures(x), itemType + (identifier + (tier + outletType)), m);
    LookupConcat(itemType, identifier + (tier + outletType), m);
    LookupConcat(identifier, tier + outletType, m);
    LookupConcat(tier, outletType, m);
    LookupFound(expanded, m);
    ReindexLookup(expanded, names, m);
  }

  /** Without drop_first, each categorical column contributes the indicator of its own value. */
  lemma ExpandedWithoutDropFirst(x: SalesInput)
    ensures forall c :: c in CategoricalColumns ==> c in Names(EncodedRow(x))
    ensures GetDummies(EncodedRow(x), CategoricalColumns, false) ==
      BaseFeatures(x)
      + (Indicators(CategoricalColumns[0], OptionalText(x.itemType), false)
      + (Indicators(CategoricalColumns[1], OptionalText(x.outletIdentifier), false)
      + (Indicators(CategoricalColumns[2], Str(x.outletLocationType), false)
      + Indicators(CategoricalColumns[3], Str(x.outletType), false))))
  {
    CategoricalPositions(x);
    EncodedDropsToBase(x);
    EncodedCategoricalValues(x);
    DummiesOfFour(EncodedRow(x), CategoricalColumns, false);
  }

  /** No base column and no indicator of the other three categorical columns is named like the outlet type's. */
  lemma OutletTypeIndicatorFirst(x: SalesInput)
    ensures OutletTypeIndicator(x) !in Names(BaseFeatures(x))
    ensures OutletTypeIndicator(x) !in Names(Indicators(CategoricalColumns[0], OptionalText(x.itemType), false))
    ensures OutletTypeIndicator(x) !in Names(Indicators(CategoricalColumns[1], OptionalText(x.outletIdentifier), false))
    ensures OutletTypeIndicator(x) !in Names(Indicators(CategoricalColumns[2], Str(x.outletLocationType), false))
  {
    var m := OutletTypeIndicator(x);
    assert m[0] == 'O' && m[7] == 'T';
    BaseFeaturesColumns(x);
    assert BaseColumns[4][7] == 'S' && BaseColumns[5][7] == 'A';
    var identifier := Indicators(CategoricalColumns[1], OptionalText(x.outletIdentifier), false);
    var tier := Indicators(CategoricalColumns[2], Str(x.outletLocationType), false);
    assert forall i :: 0 <= i < |identifier| ==> identifier[i].0[7] == 'I';
    assert forall i :: 0 <= i < |tier| ==> tier[i].0[7] == 'L';
  }

  // The steps of preprocessing, one lemma each, over the rows they pass along.

  /** The three column names of eleven letters differ. */
  lemma SameLengthNamesDiffer()
    ensures "Item_Weight" != "Outlet_Size" && "Item_Weight" != "Outlet_Type"
    ensures "Outlet_Size" != "Outlet_Type"
  {
    assert "Item_Weight"[0] != "Outlet_Size"[0];
    assert "Item_Weight"[0] != "Outlet_Type"[0];
    assert "Outlet_Size"[7] != "Outlet_Type"[7];
  }

  /** The request row once the age is appended. */
  ghost function WithAge(x: SalesInput): Row
  {
    RequestRow(x) + [(OutletAge, Int(ReferenceYear - x.outletEstablishmentYear))]
  }

  /** The request row once the age is appended and the year dropped. */
  ghost function AgedRow(x: SalesInput): Row
  {
    [ (Field.ItemWeight.Name(), Real(x.itemWeight)),
      (FatColumn, Str(x.itemFatContent)),
      (Field.ItemVisibility.Name(), Real(x.itemVisibility)),
      (Field.ItemMRP.Name(), Real(x.itemMRP)),
      (SizeColumn, Str(x.outletSize)),
      (Field.OutletLocationType.Name(), Str(x.outletLocationType)),
      (Field.OutletType.Name(), Str(x.outletType)),
      (Field.ItemType.Name(), OptionalText(x.itemType)),
      (Field.OutletIdentifier.Name(), OptionalText(x.outletIdentifier)),
      (OutletAge, Int(ReferenceYear - x.outletEstablishmentYear)) ]
  }

  /** AgedRow once fat content is encoded. */
  ghost function FatEncodedRow(x: SalesInput): Row
  {
    AgedRow(x)[1 := (FatColumn, MapValue(Str(x.itemFatContent), FatContentCodes))]
  }

  /** AgedRow once both ordinal columns are encoded: what one-hot expansion receives. */
  function EncodedRow(x: SalesInput): Row
  {
    [ (Field.ItemWeight.Name(), Real(x.itemWeight)),
      (FatColumn, MapValue(Str(x.itemFatContent), FatContentCodes)),
      (Field.ItemVisibility.Name(), Real(x.itemVisibility)),
      (Field.ItemMRP.Name(), Real(x.itemMRP)),
      (SizeColumn, MapValue(Str(x.outletSize), OutletSizeCodes)),
      (Field.OutletLocationType.Name(), Str(x.outletLocationType)),
      (Field.OutletType.Name(), Str(x.outletType)),
      (Field.ItemType.Name(), OptionalText(x.itemType)),
      (Field.OutletIdentifier.Name(), OptionalText(x.outletIdentifier)),
      (OutletAge, Int(ReferenceYear - x.outletEstablishmentYear)) ]
  }

  lemma AgeStep(x: SalesInput)
    ensures Lookup(RequestRow(x), YearColumn) == Some(Int(x.outletEstablishmentYear))
    ensures Set(RequestRow(x), OutletAge, YearsSince(ReferenceYear, Lookup(RequestRow(x), YearColumn).value))
            == WithAge(x)
  {
    var r := RequestRow(x);
    assert forall i :: 0 <= i < |r| ==> |r[i].0| != |OutletAge|;
    LookupFirst(r, 7);
  }

  lemma YearStep(x: SalesInput)
    ensures Drop(WithAge(x), [YearColumn]) == AgedRow(x)
  {
    var r := WithAge(x);
    assert forall i :: 0 <= i < |r| && i != 7 ==> |r[i].0| != |YearColumn|;
    DropRange(r, [YearColumn], 7, 8);
    assert r[..7] + r[8..] == AgedRow(x);
  }

  lemma FatStep(x: SalesInput)
    ensures Lookup(AgedRow(x), FatColumn) == Some(Str(x.itemFatContent))
    ensures Set(AgedRow(x), FatColumn, MapValue(Lookup(AgedRow(x), FatColumn).value, FatContentCodes))
            == FatEncodedRow(x)
  {
    var r := AgedRow(x);
    assert forall i :: 0 <= i < |r| && i != 1 ==> |r[i].0| != |FatColumn|;
    LookupFirst(r, 1);
    SetExisting(r, 1, MapValue(Str(x.itemFatContent), FatContentCodes));
  }

  lemma SizeStep(x: SalesInput)
    ensures Lookup(FatEncodedRow(x), SizeColumn) == Some(Str(x.outletSize))
    ensures Set(FatEncodedRow(x), SizeColumn, MapValue(Lookup(FatEncodedRow(x), SizeColumn).value, OutletSizeCodes))
            == EncodedRow(x)
  {
    var r := FatEncodedRow(x);
    SameLengthNamesDiffer();
    assert forall i :: 0 <= i < |r| && i != 4 ==> r[i].0 != SizeColumn;
    LookupFirst(r, 4);
    SetExisting(r, 4, MapValue(Str(x.outletSize), OutletSizeCodes));
  }

  /** When every listed column exists, all of them are kept, in order. */
  lemma {:induction false} AllPresent(columns: seq<string>, row: Row)
    requires forall c :: c in columns ==> c in Names(row)
    ensures PresentColumns(columns, row) == columns
  {
    if columns != [] {
      AllPresent(columns[1..], row);
    }
  }

  /** In the encoded row the categorical columns are exactly the columns 5 to 8. */
  lemma CategoricalPositions(x: SalesInput)
    ensures forall c :: c in CategoricalColumns ==> c in Names(EncodedRow(x))
    ensures forall i :: 0 <= i < |EncodedRow(x)| ==>
      (EncodedRow(x)[i].0 in CategoricalColumns <==> 5 <= i < 9)
  {
    var r := EncodedRow(x);
    SameLengthNamesDiffer();
    assert Names(r)[5] == CategoricalColumns[2] && Names(r)[6] == CategoricalColumns[3];
    assert Names(r)[7] == CategoricalColumns[0] && Names(r)[8] == CategoricalColumns[1];
  }

  lemma EncodedDropsToBase(x: SalesInput)
    ensures forall c :: c in CategoricalColumns ==> c in Names(EncodedRow(x))
    ensures Drop(EncodedRow(x), CategoricalColumns) == BaseFeatures(x)
  {
    CategoricalPositions(x);
    DropRange(EncodedRow(x), CategoricalColumns, 5, 9);
  }

  lemma EncodedCategoricalValues(x: SalesInput)
    ensures Lookup(EncodedRow(x), CategoricalColumns[0]) == Some(OptionalText(x.itemType))
    ensures Lookup(EncodedRow(x), CategoricalColumns[1]) == Some(OptionalText(x.outletIdentifier))
    ensures Lookup(EncodedRow(x), CategoricalColumns[2]) == Some(Str(x.outletLocationType))
    ensures Lookup(EncodedRow(x), CategoricalColumns[3]) == Some(Str(x.outletType))
  {
    var r := EncodedRow(x);
    CategoricalPositions(x);
    LookupFirst(r, 5);
    LookupFirst(r, 6);
    LookupFirst(r, 7);
    LookupFirst(r, 8);
  }

  lemma ExpandStep(x: SalesInput)
    ensures forall c :: c in CategoricalColumns ==> c in Names(EncodedRow(x))
    ensures PresentColumns(CategoricalColumns, EncodedRow(x)) == CategoricalColumns
    ensures GetDummies(EncodedRow(x), CategoricalColumns, true) == BaseFeatures(x)
  {
    EncodedDropsToBase(x);
    AllPresent(CategoricalColumns, EncodedRow(x));
  }

  /**
   * The alignment step: with no feature names (None, or an empty list, which
   * Python treats as false) the expanded row the earlier steps produce goes
   * to the model as it is; with names it is reindexed to them.
   */
  lemma AlignmentOnlyWithNames(x: SalesInput, featureNames: Option<seq<string>>)
    ensures !HasNames(None) && !HasNames(Some([]))
    ensures forall c :: c in PresentColumns(CategoricalColumns, EncodedRow(x)) ==> c in Names(EncodedRow(x))
    ensures !HasNames(featureNames) ==>
      Features(x, featureNames) == GetDummies(EncodedRow(x), PresentColumns(CategoricalColumns, EncodedRow(x)), true)
    ensures HasNames(featureNames) ==>
      Features(x, featureNames) ==
        Reindex(GetDummies(EncodedRow(x), PresentColumns(CategoricalColumns, EncodedRow(x)), true), featureNames.value)
  {
    ExpandStep(x);
  }

  lemma BaseFeaturesColumns(x: SalesInput)
    ensures Names(BaseFeatures(x)) == BaseColumns
  {
  }
}
