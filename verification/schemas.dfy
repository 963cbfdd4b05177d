/** The Tier-1 request schema: the application literal, the numeric field constraints with their
    defaults, the outlet-below-inlet validator, and the two literal enumerations of a structured
    design warning. Validation collects one error per offending field, in field order.
 */
module Schemas {
  import opened Basics

  // ---------------------------------------------------------------------------
  // Literal enumerations
  // ---------------------------------------------------------------------------

  datatype Application = CO2 | H2S | VOC | General

  function ApplicationName(a: Application): string
  {
    match a
    case CO2 => "CO2"
    case H2S => "H2S"
    case VOC => "VOC"
    case General => "general"
  }

  /** The literal check: exactly one of the four spellings, case-sensitive. */
  function ParseApplication(s: string): (r: Option<Application>)
    ensures r.Some? ==> ApplicationName(r.value) == s
  {
    if s == "CO2" then Some(CO2)
    else if s == "H2S" then Some(H2S)
    else if s == "VOC" then Some(VOC)
    else if s == "general" then Some(General)
    else None
  }

  lemma ApplicationRoundTrip(a: Application)
    ensures ParseApplication(ApplicationName(a)) == Some(a)
  {
  }

  /** Any string the literal check accepts is one of the four names. */
  lemma ParseApplicationAcceptsOnlyNames(s: string)
    ensures ParseApplication(s).Some? <==> exists a: Application :: ApplicationName(a) == s
  {
    if ParseApplication(s).None? {
      forall a: Application ensures ApplicationName(a) != s {
        ApplicationRoundTrip(a);
      }
    }
  }

  datatype Severity = Info | Warning | Critical

  function SeverityName(s: Severity): string
  {
    match s
    case Info => "info"
    case Warning => "warning"
    case Critical => "critical"
  }

  function ParseSeverity(s: string): (r: Option<Severity>)
    ensures r.Some? ==> SeverityName(r.value) == s
  {
    if s == "info" then Some(Info)
    else if s == "warning" then Some(Warning)
    else if s == "critical" then Some(Critical)
    else None
  }

  lemma SeverityRoundTrip(s: Severity)
    ensures ParseSeverity(SeverityName(s)) == Some(s)
  {
  }

  datatype Category = PhDrift | LowStrippableFraction | FloodingRisk | PressureDropCategory | GeneralCategory

  function CategoryName(c: Category): string
  {
    match c
    case PhDrift => "ph_drift"
    case LowStrippableFraction => "low_strippable_fraction"
    case FloodingRisk => "flooding_risk"
    case PressureDropCategory => "pressure_drop"
    case GeneralCategory => "general"
  }

  function ParseCategory(s: string): (r: Option<Category>)
    ensures r.Some? ==> CategoryName(r.value) == s
  {
    if s == "ph_drift" then Some(PhDrift)
    else if s == "low_strippable_fraction" then Some(LowStrippableFraction)
    else if s == "flooding_risk" then Some(FloodingRisk)
    else if s == "pressure_drop" then Some(PressureDropCategory)
    else if s == "general" then Some(GeneralCategory)
    else None
  }

  lemma CategoryRoundTrip(c: Category)
    ensures ParseCategory(CategoryName(c)) == Some(c)
  {
  }

  /** A structured design warning. */
  datatype DesignWarning = DesignWarning(severity: Severity, category: Category, message: string,
                                         recommendations: seq<string>, estimatedErrorRange: Option<string>)

  // ---------------------------------------------------------------------------
  // Request validation
  // ---------------------------------------------------------------------------

  const DefaultAirWaterRatio: real := 30.0
  const DefaultTemperatureC: real := 25.0
  const MinTemperatureC: real := 0.0
  const MaxTemperatureC: real := 100.0
  const MinPh: real := 4.0
  const MaxPh: real := 10.0

  /** The request as received; `None` stands for an omitted field. */
  datatype RawRequest = RawRequest(
    application: string, waterFlowM3h: real, inletMgL: real, outletMgL: real,
    airWaterRatio: Option<real>, temperatureC: Option<real>, packingId: Option<string>,
    henry: Option<real>, ph: Option<real>, chemistryJson: Option<string>)

  /** The validated request, with defaults filled in. It has the nine fields the input model
      declares and no chemistry field: the model keeps pydantic's default of ignoring undeclared
      keywords, so the chemistry JSON passed to the constructor is dropped. */
  datatype Request = Request(
    application: Application, waterFlowM3h: real, inletMgL: real, outletMgL: real,
    airWaterRatio: real, temperatureC: real, packingId: Option<string>,
    henry: Option<real>, ph: Option<real>)

  /** The keyword names of the input model's declared fields. */
  const InputFieldNames: seq<string> := ["application", "water_flow_rate_m3_h", "inlet_concentration_mg_L",
                                         "outlet_concentration_mg_L", "air_water_ratio", "temperature_c",
                                         "packing_id", "henry_constant_25C", "water_ph"]

  /** The keyword the sizing tool passes for the water chemistry. */
  const ChemistryKeyword: string := "water_chemistry_json"

  /** Whether the validated request has an attribute of this name. */
  predicate HasAttribute(name: string)
  {
    name in InputFieldNames
  }

  /** The chemistry keyword is not a declared field, so the validated request has no such
      attribute. */
  lemma ChemistryKeywordUndeclared()
    ensures !HasAttribute(ChemistryKeyword)
  {
    assert ChemistryKeyword[6] == 'c' && InputFieldNames[1][6] == 'f';
    forall i | 0 <= i < |InputFieldNames| ensures InputFieldNames[i] != ChemistryKeyword {
      if i == 1 {
        assert InputFieldNames[i][6] != ChemistryKeyword[6];
      } else {
        assert |InputFieldNames[i]| != |ChemistryKeyword|;
      }
    }
  }

  datatype Field =
    | ApplicationField | WaterFlowField | InletField | OutletField
    | AirWaterRatioField | TemperatureField | HenryField | PhField

  function AirWaterRatioOf(raw: RawRequest): real
  {
    if raw.airWaterRatio.Some? then raw.airWaterRatio.value else DefaultAirWaterRatio
  }

  function TemperatureOf(raw: RawRequest): real
  {
    if raw.temperatureC.Some? then raw.temperatureC.value else DefaultTemperatureC
  }

  /** The outlet field fails its positivity constraint, or, when the inlet itself passed, the
      after-validator that demands outlet < inlet. */
  predicate OutletRejected(raw: RawRequest)
  {
    raw.outletMgL <= 0.0 || (raw.inletMgL > 0.0 && raw.outletMgL >= raw.inletMgL)
  }

  /** Whether one field fails its constraints. */
  predicate FieldFails(raw: RawRequest, f: Field)
  {
    match f
    case ApplicationField => ParseApplication(raw.application).None?
    case WaterFlowField => raw.waterFlowM3h <= 0.0
    case InletField => raw.inletMgL <= 0.0
    case OutletField => OutletRejected(raw)
    case AirWaterRatioField => AirWaterRatioOf(raw) <= 0.0
    case TemperatureField => !(MinTemperatureC <= TemperatureOf(raw) <= MaxTemperatureC)
    case HenryField => raw.henry.Some? && raw.henry.value <= 0.0
    case PhField => raw.ph.Some? && !(MinPh <= raw.ph.value <= MaxPh)
  }

  const FieldOrder: seq<Field> := [ApplicationField, WaterFlowField, InletField, OutletField,
                                   AirWaterRatioField, TemperatureField, HenryField, PhField]

  /** Every field appears in the declaration order. */
  lemma AllFieldsListed(f: Field)
    ensures f in FieldOrder
  {
    match f
    case ApplicationField => assert FieldOrder[0] == f;
    case WaterFlowField => assert FieldOrder[1] == f;
    case InletField => assert FieldOrder[2] == f;
    case OutletField => assert FieldOrder[3] == f;
    case AirWaterRatioField => assert FieldOrder[4] == f;
    case TemperatureField => assert FieldOrder[5] == f;
    case HenryField => assert FieldOrder[6] == f;
    case PhField => assert FieldOrder[7] == f;
  }

  /** The failing fields, in declaration order. */
  function FieldErrors(raw: RawRequest): (errors: seq<Field>)
    ensures forall f :: f in errors <==> FieldFails(raw, f)
  {
    forall f: Field ensures f in FieldOrder {
      AllFieldsListed(f);
    }
    KeepFailing(raw, FieldOrder)
  }

  function KeepFailing(raw: RawRequest, fields: seq<Field>): (r: seq<Field>)
    ensures forall f :: f in r <==> f in fields && FieldFails(raw, f)
  {
    if |fields| == 0 then []
    else (if FieldFails(raw, fields[0]) then [fields[0]] else []) + KeepFailing(raw, fields[1..])
  }

  /** A request no field of which fails, with its defaults filled in. */
  function Accepted(raw: RawRequest): (q: Request)
    requires forall f :: !FieldFails(raw, f)
    ensures ApplicationName(q.application) == raw.application
    ensures 0.0 < q.outletMgL < q.inletMgL && q.waterFlowM3h > 0.0 && q.airWaterRatio > 0.0
    ensures MinTemperatureC <= q.temperatureC <= MaxTemperatureC
    ensures (q.ph.Some? ==> MinPh <= q.ph.value <= MaxPh) && (q.henry.Some? ==> q.henry.value > 0.0)
    ensures raw.airWaterRatio.None? ==> q.airWaterRatio == DefaultAirWaterRatio
    ensures raw.temperatureC.None? ==> q.temperatureC == DefaultTemperatureC
    ensures q.packingId == raw.packingId && q.henry == raw.henry && q.ph == raw.ph
  {
    assert !FieldFails(raw, ApplicationField) && !FieldFails(raw, WaterFlowField) && !FieldFails(raw, InletField);
    assert !FieldFails(raw, OutletField) && !FieldFails(raw, AirWaterRatioField) && !FieldFails(raw, TemperatureField);
    assert !FieldFails(raw, HenryField) && !FieldFails(raw, PhField);
    Request(ParseApplication(raw.application).value, raw.waterFlowM3h, raw.inletMgL, raw.outletMgL,
            AirWaterRatioOf(raw), TemperatureOf(raw), raw.packingId, raw.henry, raw.ph)
  }

  /** `HeuristicSizingInput(...)`: the validated request, or every failing field. */
  function Validate(raw: RawRequest): (r: Result<Request, seq<Field>>)
    ensures r.Ok? <==> forall f :: !FieldFails(raw, f)
    ensures r.Err? ==> |r.error| > 0 && forall f :: f in r.error <==> FieldFails(raw, f)
    ensures r.Ok? ==> r.value == Accepted(raw)
  {
    var errors := FieldErrors(raw);
    if |errors| > 0 then
      assert FieldFails(raw, errors[0]) by { assert errors[0] in errors; }
      Err(errors)
    else Ok(Accepted(raw))
  }

  /** The outlet check only runs when the inlet passed: a bad inlet with a larger outlet reports
      the inlet alone. */
  lemma OutletCheckNeedsValidInlet(raw: RawRequest)
    requires raw.inletMgL <= 0.0 && raw.outletMgL > 0.0
    ensures FieldFails(raw, InletField) && !FieldFails(raw, OutletField)
  {
  }

  /** The validated request is a fixed point: re-validating what it describes yields itself. */
  function AsRaw(q: Request): RawRequest
  {
    RawRequest(ApplicationName(q.application), q.waterFlowM3h, q.inletMgL, q.outletMgL, Some(q.airWaterRatio),
               Some(q.temperatureC), q.packingId, q.henry, q.ph, None)
  }

  lemma ValidateIdempotent(raw: RawRequest)
    requires Validate(raw).Ok?
    ensures Validate(AsRaw(Validate(raw).value)) == Validate(raw)
  {
    var q := Validate(raw).value;
    assert q == Accepted(raw);
    ApplicationRoundTrip(q.application);
    forall f ensures !FieldFails(AsRaw(q), f) {
      assert !FieldFails(raw, f);
    }
  }
}
