/**
 * The request and response records of the prediction API
 * (schemas/prediction.py): the fields of a sales prediction request, the
 * constraints the schema puts on each of them, and the prediction record
 * with its default currency and note.
 */
module Schema {
  import opened Wrappers

  /** The fields of a request; Name gives each one's name exactly as the request spells it. */
  datatype Field =
    | ItemWeight | ItemFatContent | ItemVisibility | ItemMRP | OutletSize
    | OutletLocationType | OutletType | OutletEstablishmentYear | ItemType | OutletIdentifier
  {
    function Name(): string
    {
      match this
      case ItemWeight => "Item_Weight"
      case ItemFatContent => "Item_Fat_Content"
      case ItemVisibility => "Item_Visibility"
      case ItemMRP => "Item_MRP"
      case OutletSize => "Outlet_Size"
      case OutletLocationType => "Outlet_Location_Type"
      case OutletType => "Outlet_Type"
      case OutletEstablishmentYear => "Outlet_Establishment_Year"
      case ItemType => "Item_Type"
      case OutletIdentifier => "Outlet_Identifier"
    }
  }

  // The alternatives of each anchored pattern `^(a|b|...)$`.
  const FatContentLevels: seq<string> := ["Low Fat", "Regular"]
  const OutletSizes: seq<string> := ["Small", "Medium", "High"]
  const LocationTiers: seq<string> := ["Tier 1", "Tier 2", "Tier 3"]
  const OutletTypes: seq<string> :=
    ["Supermarket Type1", "Supermarket Type2", "Supermarket Type3", "Grocery Store"]

  const MaxVisibility: real := 0.35
  const FirstYear: int := 1980
  const LastYear: int := 2030

  /** A sales prediction request: one item in one outlet. */
  datatype SalesInput = SalesInput(
    itemWeight: real,
    itemFatContent: string,
    itemVisibility: real,
    itemMRP: real,
    outletSize: string,
    outletLocationType: string,
    outletType: string,
    outletEstablishmentYear: int,
    itemType: Option<string>,
    outletIdentifier: Option<string>)

  /** A field constraint, as the schema declares it. */
  datatype Constraint =
    | GreaterThan(bound: real)
    | Between(lo: real, hi: real)
    | YearBetween(first: int, last: int)
    | Pattern(alternatives: seq<string>)

  /** One rejected field and the constraint it broke. */
  datatype Violation = Violation(field: Field, constraint: Constraint)

  /**
   * The regular-expression engine's verdict on a literal alternative when
   * the match is anchored at both ends: character by character, case
   * sensitive, and the string must end exactly where the literal ends.
   */
  function MatchesLiteral(s: string, literal: string): (b: bool)
    ensures b <==> s == literal
  {
    if literal == [] then s == []
    else s != [] && s[0] == literal[0] && MatchesLiteral(s[1..], literal[1..])
  }

  /** A full match of `^(a1|a2|...)$`: some alternative matches the whole string. */
  function FullMatch(s: string, alternatives: seq<string>): (b: bool)
    ensures b <==> s in alternatives
  {
    if alternatives == [] then false
    else MatchesLiteral(s, alternatives[0]) || FullMatch(s, alternatives[1..])
  }

  /** The constraint the schema declares on a field; the optional fields have none. */
  function ConstraintOf(f: Field): Option<Constraint>
  {
    match f
    case ItemWeight => Some(GreaterThan(0.0))
    case ItemFatContent => Some(Pattern(FatContentLevels))
    case ItemVisibility => Some(Between(0.0, MaxVisibility))
    case ItemMRP => Some(GreaterThan(0.0))
    case OutletSize => Some(Pattern(OutletSizes))
    case OutletLocationType => Some(Pattern(LocationTiers))
    case OutletType => Some(Pattern(OutletTypes))
    case OutletEstablishmentYear => Some(YearBetween(FirstYear, LastYear))
    case ItemType => None
    case OutletIdentifier => None
  }

  /** Whether field f of request x meets the constraint ConstraintOf(f). */
  predicate Satisfies(x: SalesInput, f: Field)
  {
    match f
    case ItemWeight => x.itemWeight > 0.0
    case ItemFatContent => FullMatch(x.itemFatContent, FatContentLevels)
    case ItemVisibility => 0.0 <= x.itemVisibility <= MaxVisibility
    case ItemMRP => x.itemMRP > 0.0
    case OutletSize => FullMatch(x.outletSize, OutletSizes)
    case OutletLocationType => FullMatch(x.outletLocationType, LocationTiers)
    case OutletType => FullMatch(x.outletType, OutletTypes)
    case OutletEstablishmentYear => FirstYear <= x.outletEstablishmentYear <= LastYear
    case ItemType => true
    case OutletIdentifier => true
  }

  /** The fields of a request in the order the schema declares them. */
  const Fields: seq<Field> := [
    ItemWeight, ItemFatContent, ItemVisibility, ItemMRP, OutletSize,
    OutletLocationType, OutletType, OutletEstablishmentYear, ItemType, OutletIdentifier]

  /** The violations among the fields fs of request x, in the order of fs. */
  function ViolationsAmong(x: SalesInput, fs: seq<Field>): (vs: seq<Violation>)
    ensures forall v :: v in vs <==>
      v.field in fs && ConstraintOf(v.field) == Some(v.constraint) && !Satisfies(x, v.field)
  {
    if fs == [] then []
    else
      var rest := ViolationsAmong(x, fs[1..]);
      assert forall f :: f in fs <==> f == fs[0] || f in fs[1..];
      if Satisfies(x, fs[0]) then rest
      else [Violation(fs[0], ConstraintOf(fs[0]).value)] + rest
  }

  lemma EveryFieldListed(f: Field)
    ensures f in Fields
  {
    match f
    case ItemWeight => assert Fields[0] == f;
    case ItemFatContent => assert Fields[1] == f;
    case ItemVisibility => assert Fields[2] == f;
    case ItemMRP => assert Fields[3] == f;
    case OutletSize => assert Fields[4] == f;
    case OutletLocationType => assert Fields[5] == f;
    case OutletType => assert Fields[6] == f;
    case OutletEstablishmentYear => assert Fields[7] == f;
    case ItemType => assert Fields[8] == f;
    case OutletIdentifier => assert Fields[9] == f;
  }

  /** The violations of a request, in field order. */
  function Violations(x: SalesInput): seq<Violation>
  {
    ViolationsAmong(x, Fields)
  }

  /** A request the schema accepts. */
  predicate Valid(x: SalesInput): (b: bool)
    ensures b <==>
      && x.itemWeight > 0.0
      && x.itemFatContent in FatContentLevels
      && 0.0 <= x.itemVisibility <= MaxVisibility
      && x.itemMRP > 0.0
      && x.outletSize in OutletSizes
      && x.outletLocationType in LocationTiers
      && x.outletType in OutletTypes
      && FirstYear <= x.outletEstablishmentYear <= LastYear
  {
    && Satisfies(x, ItemWeight)
    && Satisfies(x, ItemFatContent)
    && Satisfies(x, ItemVisibility)
    && Satisfies(x, ItemMRP)
    && Satisfies(x, OutletSize)
    && Satisfies(x, OutletLocationType)
    && Satisfies(x, OutletType)
    && Satisfies(x, OutletEstablishmentYear)
  }

  /** Valid is the schema's constraints on every field, the optional ones included. */
  lemma ValidMeansEveryFieldSatisfied(x: SalesInput)
    ensures Valid(x) <==> forall f :: Satisfies(x, f)
  {
    if Valid(x) {
      forall f ensures Satisfies(x, f) {
        match f
        case ItemType =>
        case OutletIdentifier =>
        case _ =>
      }
    }
  }

  /** A field that breaks its constraint is reported with that constraint. */
  lemma UnsatisfiedIsReported(x: SalesInput, f: Field)
    requires !Satisfies(x, f)
    ensures ConstraintOf(f).Some? && Violation(f, ConstraintOf(f).value) in Violations(x)
  {
    EveryFieldListed(f);
  }

  /** A request is valid exactly when validation finds no violation. */
  lemma NoViolationsMeansValid(x: SalesInput)
    ensures Violations(x) == [] <==> Valid(x)
  {
    ValidMeansEveryFieldSatisfied(x);
    var vs := Violations(x);
    if vs == [] {
      forall f ensures Satisfies(x, f) {
        if !Satisfies(x, f) {
          UnsatisfiedIsReported(x, f);
        }
      }
    } else {
      assert vs[0] in vs;
    }
  }

  /**
   * Validation either yields the request itself, or fails naming every
   * offending field and its constraint.
   */
  function Validate(x: SalesInput): (r: Result<SalesInput, seq<Violation>>)
    ensures r.Ok? <==> Valid(x)
    ensures r.Ok? ==> r.value == x
    ensures r.Err? ==> r.error != [] && r.error == Violations(x)
  {
    var vs := Violations(x);
    NoViolationsMeansValid(x);
    if vs == [] then Ok(x) else Err(vs)
  }

  /**
   * The documented edge cases: both ends of the visibility and year ranges
   * are accepted, the years just outside are rejected, and neither weight
   * nor price has an upper bound. Any valid request serves as the base.
   */
  lemma BoundaryRequests(x: SalesInput, w: real, m: real)
    requires Valid(x) && w > 0.0 && m > 0.0
    ensures Valid(x.(outletEstablishmentYear := 1980))
    ensures Valid(x.(outletEstablishmentYear := 2030))
    ensures !Valid(x.(outletEstablishmentYear := 1979))
    ensures !Valid(x.(outletEstablishmentYear := 2031))
    ensures Valid(x.(itemVisibility := 0.0)) && Valid(x.(itemVisibility := 0.35))
    ensures Valid(x.(itemWeight := w, itemMRP := m))
    ensures !Valid(x.(itemWeight := 0.0)) && !Valid(x.(itemMRP := 0.0))
  {
  }

  /** The patterns are case sensitive and anchored at both ends. */
  lemma PatternsAreExact(x: SalesInput)
    requires Valid(x)
    ensures !Valid(x.(itemFatContent := "low fat"))
    ensures !Valid(x.(itemFatContent := "Low Fat "))
    ensures !Valid(x.(outletSize := "Extra Small"))
    ensures !Valid(x.(outletLocationType := "Tier 4"))
  {
    assert "low fat"[0] != "Low Fat"[0] && "low fat"[0] != "Regular"[0];
    assert |"Low Fat "| != |"Low Fat"| && "Low Fat "[0] != "Regular"[0];
  }

  /** The optional fields take any value, absent included. */
  lemma OptionalFieldsUnconstrained(x: SalesInput, t: Option<string>, o: Option<string>)
    requires Valid(x)
    ensures Valid(x.(itemType := t, outletIdentifier := o))
  {
  }

  /** The prediction record of a response. */
  datatype SalesPrediction = SalesPrediction(predictedSales: real, currency: string, note: string)

  const DefaultCurrency := "USD"
  const DefaultNote := "Prediction from XGBoost model"

  /** Builds a prediction record; a field that is not supplied takes its default. */
  function NewSalesPrediction(predictedSales: real, currency: Option<string>, note: Option<string>)
    : (p: SalesPrediction)
    ensures p.predictedSales == predictedSales
    ensures currency.None? ==> p.currency == "USD"
    ensures currency.Some? ==> p.currency == currency.value
    ensures note.None? ==> p.note == "Prediction from XGBoost model"
    ensures note.Some? ==> p.note == note.value
  {
    SalesPrediction(predictedSales, currency.GetOr(DefaultCurrency), note.GetOr(DefaultNote))
  }
}
