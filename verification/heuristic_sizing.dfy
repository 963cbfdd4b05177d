/** The Tier-1 heuristic sizing tool: validate the request, prepare the background water
    chemistry, resolve Henry's constant, split the inlet by pH speciation, raise the pH-drift
    warning, design the tower on the strippable basis, and optionally size the blower, whose
    failures never fail the sizing.

    The speciation library, the packing catalog file, the pressure-drop correlation, the
    compression-work formulas, the transcendental functions, JSON decoding and the formatting of
    the warning message are parameters.
 */
module HeuristicSizing {
  import opened Basics
  import Schemas
  import WaterChemistry
  import TowerDesign
  import PackingProperties
  import PD = PressureDrop
  import BlowerSizing

  // ---------------------------------------------------------------------------
  // Application tables
  // ---------------------------------------------------------------------------

  /** The key the tables fall back to. */
  const GeneralKey: string := "general"

  /** Dimensionless Henry's constants at 25 deg C by table key. */
  function HenryTable(key: string): Option<real>
  {
    match key
    case "CO2" => Some(0.83)
    case "H2S" => Some(0.41)
    case "VOC" => Some(8.59)
    case "general" => Some(1.0)
    case _ => None
  }

  /** Molecular weights, g/mol, by table key. */
  function MolecularWeightTable(key: string): Option<real>
  {
    match key
    case "CO2" => Some(44.01)
    case "H2S" => Some(34.08)
    case "VOC" => Some(131.388)
    case "general" => Some(100.0)
    case _ => None
  }

  /** PHREEQC gas phase names by table key. */
  function GasPhaseTable(key: string): Option<string>
  {
    match key
    case "CO2" => Some("CO2(g)")
    case "H2S" => Some("H2S(g)")
    case "VOC" => Some("TCE(g)")
    case "general" => Some("TCE(g)")
    case _ => None
  }

  /** `table.get(application.upper(), table["general"])` for each of the three tables. */
  function DefaultHenry(application: string): (h: real)
    ensures HenryTable(Upper(application)).Some? ==> h == HenryTable(Upper(application)).value
    ensures HenryTable(Upper(application)).None? ==> h == 1.0
  {
    match HenryTable(Upper(application))
    case Some(h) => h
    case None => HenryTable(GeneralKey).value
  }

  function MolecularWeightFor(application: string): (w: real)
    ensures MolecularWeightTable(Upper(application)).Some? ==> w == MolecularWeightTable(Upper(application)).value
    ensures MolecularWeightTable(Upper(application)).None? ==> w == 100.0
  {
    match MolecularWeightTable(Upper(application))
    case Some(w) => w
    case None => MolecularWeightTable(GeneralKey).value
  }

  function GasPhaseFor(application: string): (g: string)
    ensures GasPhaseTable(Upper(application)).Some? ==> g == GasPhaseTable(Upper(application)).value
    ensures GasPhaseTable(Upper(application)).None? ==> g == "TCE(g)"
  {
    match GasPhaseTable(Upper(application))
    case Some(g) => g
    case None => GasPhaseTable(GeneralKey).value
  }

  /** Upper-casing never produces the lower-case fallback key itself. */
  lemma UpperNeverGeneral(s: string)
    ensures Upper(s) != GeneralKey
  {
    if |s| == |GeneralKey| {
      assert Upper(s)[0] == UpperChar(s[0]);
      assert Upper(s)[0] != 'g';
    }
  }

  /** `Henry's constant`: the request's override, else the application default. */
  function HenryFor(q: Schemas.Request): (h: real)
    ensures q.henry.Some? ==> h == q.henry.value
    ensures q.henry.None? ==> h == DefaultHenry(Schemas.ApplicationName(q.application))
  {
    if q.henry.Some? then q.henry.value else DefaultHenry(Schemas.ApplicationName(q.application))
  }

  /** The values each application resolves to. The "general" application reaches its entry only
      through the fallback, since its upper-cased name "GENERAL" is not a key. */
  lemma ApplicationDefaults(a: Schemas.Application)
    ensures var name := Schemas.ApplicationName(a);
            match a
            case CO2 => DefaultHenry(name) == 0.83 && MolecularWeightFor(name) == 44.01 && GasPhaseFor(name) == "CO2(g)"
            case H2S => DefaultHenry(name) == 0.41 && MolecularWeightFor(name) == 34.08 && GasPhaseFor(name) == "H2S(g)"
            case VOC => DefaultHenry(name) == 8.59 && MolecularWeightFor(name) == 131.388 && GasPhaseFor(name) == "TCE(g)"
            case General => DefaultHenry(name) == 1.0 && MolecularWeightFor(name) == 100.0 && GasPhaseFor(name) == "TCE(g)"
  {
    var name := Schemas.ApplicationName(a);
    match a
    case CO2 => assert Upper(name) == "CO2";
    case H2S => assert Upper(name) == "H2S";
    case VOC => assert Upper(name) == "VOC";
    case General =>
      assert Upper(name) == "GENERAL";
  }

  /** Any name other than the three specific applications, in any case, resolves to the
      general entries. */
  lemma UnknownApplicationFallsBack(application: string)
    requires Upper(application) != "CO2" && Upper(application) != "H2S" && Upper(application) != "VOC"
    ensures DefaultHenry(application) == 1.0
    ensures MolecularWeightFor(application) == 100.0
    ensures GasPhaseFor(application) == "TCE(g)"
  {
    UpperNeverGeneral(application);
  }

  // ---------------------------------------------------------------------------
  // Speciation split
  // ---------------------------------------------------------------------------

  /** `strippable_fraction(solute, ph, temp_c, total_mg_l)`: the neutral fraction of H2S or CO2. */
  type Speciation = (string, real, real, real) -> real

  const MinEffectiveOutletMgL: real := 0.01

  /** What the tower is designed to strip. */
  datatype DesignBasis = DesignBasis(strippableFraction: real, effectiveInlet: real, effectiveOutlet: real,
                                     nonStrippableInlet: real)

  /** Whether the request's chemistry is pH-dependent: a pH is given for H2S or CO2. */
  predicate Speciated(q: Schemas.Request)
  {
    q.ph.Some? && PhSensitive(Schemas.ApplicationName(q.application))
  }

  /** The design basis: with a pH for H2S or CO2, only the strippable part of the inlet is stripped,
      and the non-strippable part is taken off the outlet target (floored at 0.01 mg/L). */
  function DesignBasisFor(q: Schemas.Request, speciation: Speciation): (b: DesignBasis)
    ensures !Speciated(q) ==> b == DesignBasis(1.0, q.inletMgL, q.outletMgL, 0.0)
    ensures Speciated(q) ==>
              b.strippableFraction == speciation(Schemas.ApplicationName(q.application), q.ph.value, q.temperatureC, q.inletMgL)
              && b.effectiveInlet + b.nonStrippableInlet == q.inletMgL
              && b.effectiveInlet == q.inletMgL * b.strippableFraction
              && b.effectiveOutlet == Max(q.outletMgL - b.nonStrippableInlet, MinEffectiveOutletMgL)
              && b.effectiveOutlet >= MinEffectiveOutletMgL
  {
    if Speciated(q) then
      var f := speciation(Schemas.ApplicationName(q.application), q.ph.value, q.temperatureC, q.inletMgL);
      var strippable := q.inletMgL * f;
      var rest := q.inletMgL * (1.0 - f);
      assert rest == q.inletMgL - strippable;
      DesignBasis(f, strippable, Max(q.outletMgL - rest, MinEffectiveOutletMgL), rest)
    else DesignBasis(1.0, q.inletMgL, q.outletMgL, 0.0)
  }

  /** With a fraction in [0, 1], both parts of the split lie between 0 and the inlet. */
  lemma SplitWithinInlet(q: Schemas.Request, speciation: Speciation)
    requires Speciated(q) && q.inletMgL >= 0.0
    requires 0.0 <= DesignBasisFor(q, speciation).strippableFraction <= 1.0
    ensures var b := DesignBasisFor(q, speciation);
            0.0 <= b.effectiveInlet <= q.inletMgL && 0.0 <= b.nonStrippableInlet <= q.inletMgL
  {
    var b := DesignBasisFor(q, speciation);
    var f := b.strippableFraction;
    ScaleMonotone(0.0, f, q.inletMgL);
    ScaleMonotone(f, 1.0, q.inletMgL);
    assert f * q.inletMgL <= 1.0 * q.inletMgL == q.inletMgL;
    assert b.effectiveInlet == f * q.inletMgL;
    assert 0.0 <= b.effectiveInlet <= q.inletMgL;
    assert b.nonStrippableInlet == q.inletMgL - b.effectiveInlet;
  }

  /** When the non-strippable part alone exceeds the outlet target, the design strips down to the
      0.01 mg/L floor. */
  lemma UnachievableTargetHitsFloor(q: Schemas.Request, speciation: Speciation)
    requires Speciated(q)
    requires DesignBasisFor(q, speciation).nonStrippableInlet > q.outletMgL
    ensures DesignBasisFor(q, speciation).effectiveOutlet == MinEffectiveOutletMgL
  {
  }

  // ---------------------------------------------------------------------------
  // pH-drift warning
  // ---------------------------------------------------------------------------

  const DriftPh: real := 7.0
  const DriftWarningLambda: real := 2.5
  const DriftCriticalLambda: real := 2.0
  const DriftErrorRange: string := "50-200% height underestimate"

  const DriftRecommendations: seq<string> := [
    "Acidify feed to pH 5.5-6.5 (reduces tower height 3-5\U{D7})",
    "Use Tier 2 simulation tool for accurate pH-coupled sizing",
    "Consider distributed acid dosing along tower height",
    "Budget for taller tower: estimated height may be 2-3\U{D7} actual value"
  ]

  /** The formatted warning text for a pH and an apparent stripping factor. */
  type Describe = (real, real) -> string

  /** The apparent stripping factor `f*H*(A/W)`. */
  function ApparentLambda(q: Schemas.Request, fraction: real, henry: real): real
  {
    fraction * henry * q.airWaterRatio
  }

  /** The structured warnings: one pH-drift warning for a pH-sensitive application at pH 7 or above
      whose apparent stripping factor is below 2.5; critical below 2.0. */
  function DriftWarnings(q: Schemas.Request, fraction: real, henry: real, describe: Describe)
    : (ws: seq<Schemas.DesignWarning>)
    ensures |ws| <= 1
    ensures |ws| == 1 <==> q.ph.Some? && q.ph.value >= DriftPh && PhSensitive(Schemas.ApplicationName(q.application))
                           && ApparentLambda(q, fraction, henry) < DriftWarningLambda
    ensures |ws| == 1 ==>
              && ws[0].category == Schemas.PhDrift
              && (ws[0].severity == Schemas.Critical <==> ApparentLambda(q, fraction, henry) < DriftCriticalLambda)
              && (ws[0].severity == Schemas.Critical || ws[0].severity == Schemas.Warning)
              && ws[0].recommendations == DriftRecommendations
              && ws[0].estimatedErrorRange == Some(DriftErrorRange)
  {
    if q.ph.Some? && q.ph.value >= DriftPh && PhSensitive(Schemas.ApplicationName(q.application)) then
      var lambda := ApparentLambda(q, fraction, henry);
      if lambda < DriftWarningLambda then
        var severity := if lambda < DriftCriticalLambda then Schemas.Critical else Schemas.Warning;
        [Schemas.DesignWarning(severity, Schemas.PhDrift, describe(q.ph.value, lambda), DriftRecommendations,
                               Some(DriftErrorRange))]
      else []
    else []
  }

  /** More air per unit of water never brings the warning back: with a non-negative fraction and
      Henry's constant, a request that draws no warning still draws none at a higher A/W. */
  lemma MoreAirKeepsWarningAway(q: Schemas.Request, fraction: real, henry: real, moreAir: real, describe: Describe)
    requires fraction >= 0.0 && henry >= 0.0 && moreAir >= q.airWaterRatio
    requires |DriftWarnings(q, fraction, henry, describe)| == 0
    ensures |DriftWarnings(q.(airWaterRatio := moreAir), fraction, henry, describe)| == 0
  {
    var k := fraction * henry;
    assert k >= 0.0;
    ScaleMonotone(q.airWaterRatio, moreAir, k);
    assert ApparentLambda(q, fraction, henry) == q.airWaterRatio * k;
    assert ApparentLambda(q.(airWaterRatio := moreAir), fraction, henry) == moreAir * k;
  }

  // ---------------------------------------------------------------------------
  // Blower stage
  // ---------------------------------------------------------------------------

  const BlowerGasDensity: real := 1.2
  const BlowerLiquidDensity: real := 1000.0
  const BlowerLiquidViscosityCp: real := 1.0
  const BlowerInletPa: real := 101325.0
  const DefaultMotorEfficiency: real := 0.92

  /** The blower request options. */
  datatype BlowerOptions = BlowerOptions(enabled: bool, efficiencyOverride: Option<real>, motorEfficiency: real)

  /** Pressure drop, blower, and the aftercooling duty reported only when positive. */
  datatype BlowerReport = BlowerReport(drop: PD.SystemDrop, blower: BlowerSizing.BlowerSpec, aftercoolingKw: Option<real>)

  /** The pressure-drop call for a design whose packing was found in the catalog. */
  function SystemDropFor(d: TowerDesign.Design, packing: PackingProperties.Packing, correlation: Option<PD.Robbins>)
    : Result<PD.SystemDrop, PD.PressureDropError>
  {
    PD.TotalSystemDrop(d.packingHeightM, d.towerHeightM, d.diameterM, d.airFlowM3h, d.waterFlowM3h,
                       packing.packingFactorPerM, BlowerGasDensity, BlowerLiquidDensity, BlowerLiquidViscosityCp,
                       PD.DefaultAllowances, correlation)
  }

  /** The blower call for a computed system drop. */
  function BlowerFor(d: TowerDesign.Design, drop: PD.SystemDrop, temperatureC: real, opts: BlowerOptions,
                     work: BlowerSizing.CompressionWork): Result<BlowerSizing.BlowerSpec, BlowerSizing.BlowerError>
  {
    BlowerSizing.BlowerPower(d.airFlowM3h, drop.totalPa, BlowerInletPa, temperatureC, opts.efficiencyOverride,
                             opts.motorEfficiency, None, work)
  }

  /** The blower block: skipped when the design's packing is not in the catalog, and abandoned
      (None) when either calculation raises. */
  function BlowerStage(d: TowerDesign.Design, catalog: PackingProperties.Catalog, temperatureC: real,
                       opts: BlowerOptions, correlation: Option<PD.Robbins>, work: BlowerSizing.CompressionWork)
    : (r: Option<BlowerReport>)
    ensures r.Some? <==>
              d.packingId.Some? && d.packingId.value in KeySet(catalog)
              && SystemDropFor(d, PackingProperties.PackingById(catalog, d.packingId.value).value, correlation).Ok?
              && BlowerFor(d, SystemDropFor(d, PackingProperties.PackingById(catalog, d.packingId.value).value, correlation).value,
                           temperatureC, opts, work).Ok?
    ensures r.Some? ==>
              var p := PackingProperties.PackingById(catalog, d.packingId.value).value;
              SystemDropFor(d, p, correlation) == Ok(r.value.drop)
              && BlowerFor(d, r.value.drop, temperatureC, opts, work) == Ok(r.value.blower)
              && (r.value.aftercoolingKw.Some? <==> r.value.blower.aftercoolingKw > 0.0)
              && (r.value.aftercoolingKw.Some? ==> r.value.aftercoolingKw.value == r.value.blower.aftercoolingKw)
  {
    if d.packingId.None? then None
    else
      match PackingProperties.PackingById(catalog, d.packingId.value)
      case None => None
      case Some(p) =>
        match SystemDropFor(d, p, correlation)
        case Err(_) => None
        case Ok(drop) =>
          match BlowerFor(d, drop, temperatureC, opts, work)
          case Err(_) => None
          case Ok(b) =>
            Some(BlowerReport(drop, b, if b.aftercoolingKw > 0.0 then Some(b.aftercoolingKw) else None))
  }

  // ---------------------------------------------------------------------------
  // The tool
  // ---------------------------------------------------------------------------

  /** Everything outside the model the tool calls into; `correlation` is None when the fluids
      library, which also provides the blower module's compression formulas, is missing. */
  datatype Environment = Environment(
    math: TowerDesign.Math, catalog: PackingProperties.Catalog, speciation: Speciation,
    decode: string -> Option<WaterChemistry.Json>, correlation: Option<PD.Robbins>,
    work: BlowerSizing.CompressionWork, describe: Describe)

  /** `Tier1Outcome` with the chemistry field the Tier-2 simulation reads back: the request, the
      design, its warnings and blower, the constants a Tier-2 run needs, and the prepared
      background chemistry. */
  datatype Outcome = Outcome(
    request: Schemas.Request, design: TowerDesign.Design, warnings: seq<Schemas.DesignWarning>,
    blower: Option<BlowerReport>, henry: real, molecularWeight: real, gasPhase: string,
    chemistry: WaterChemistry.Prepared)

  /** The keyword names of the fields the `Tier1Outcome` dataclass declares. */
  const OutcomeFieldNames: seq<string> := ["request", "result", "henry_constant", "molecular_weight", "gas_phase_name"]

  /** The keyword the tool passes to `Tier1Outcome` for the prepared chemistry. */
  const OutcomeChemistryKeyword: string := "water_chemistry"

  /** Validation, attribute and chemistry errors surface as they are; errors inside the design
      block are re-raised as one design failure, including the result schema's refusal of a
      missing packing id and the outcome constructor's refusal of an undeclared keyword. */
  datatype SizingError =
    | InvalidRequest(fields: seq<Schemas.Field>)
    | MissingAttribute(name: string)
    | ChemistryRejected(chemistry: WaterChemistry.ChemistryError)
    | FluidsMissing   // the blower module re-raises ImportError when the library is absent
    | DesignFailed(tower: TowerDesign.TowerError)
    | MissingPackingId
    | UnexpectedKeyword(keyword: string)

  predicate IsDesignFailure(e: SizingError)
  {
    e.DesignFailed? || e.MissingPackingId? || e.UnexpectedKeyword?
  }

  /** The tower design on the request's design basis. */
  function DesignFor(env: Environment, q: Schemas.Request): Result<TowerDesign.Design, TowerDesign.TowerError>
  {
    var basis := DesignBasisFor(q, env.speciation);
    TowerDesign.DesignStrippingTower(env.math, env.catalog, Schemas.ApplicationName(q.application), q.waterFlowM3h,
                                     basis.effectiveInlet, basis.effectiveOutlet, HenryFor(q), q.airWaterRatio,
                                     q.packingId)
  }

  function ChemistryFor(env: Environment, json: Option<string>): Result<WaterChemistry.Prepared, WaterChemistry.ChemistryError>
  {
    WaterChemistry.PrepareChemistry(json, env.decode, WaterChemistry.DefaultTemplate)
  }

  // The tool as it was evidently meant to work: the chemistry JSON reaches the preparation step
  // and the outcome carries the prepared chemistry.

  /** The outcome once the design exists: the result schema refuses a design without a packing id,
      and the blower block is added only on request. */
  function AssembleOutcome(env: Environment, q: Schemas.Request, chemistry: WaterChemistry.Prepared,
                    design: TowerDesign.Design, opts: BlowerOptions): (r: Result<Outcome, SizingError>)
    ensures r.Err? <==> design.packingId.None?
    ensures r.Err? ==> r.error == MissingPackingId
    ensures r.Ok? ==> r.value.request == q && r.value.chemistry == chemistry && r.value.design == design
    ensures r.Ok? ==> (r.value.blower.Some? ==> opts.enabled)
  {
    if design.packingId.None? then Err(MissingPackingId)
    else
      var henry := HenryFor(q);
      var warnings := DriftWarnings(q, DesignBasisFor(q, env.speciation).strippableFraction, henry, env.describe);
      var blower := if opts.enabled then BlowerStage(design, env.catalog, q.temperatureC, opts, env.correlation, env.work)
                    else None;
      var name := Schemas.ApplicationName(q.application);
      Ok(Outcome(q, design, warnings, blower, henry, MolecularWeightFor(name), GasPhaseFor(name), chemistry))
  }

  /** The stages after chemistry preparation: the design block, where every failure becomes a
      design failure. */
  function SizeDesign(env: Environment, q: Schemas.Request, chemistry: WaterChemistry.Prepared, opts: BlowerOptions)
    : (r: Result<Outcome, SizingError>)
    ensures r.Err? ==> r.error.DesignFailed? || r.error.MissingPackingId?
    ensures DesignFor(env, q).Err? ==> r == Err(DesignFailed(DesignFor(env, q).error))
    ensures r.Ok? ==> DesignFor(env, q) == Ok(r.value.design) && r.value.design.packingId.Some?
  {
    match DesignFor(env, q)
    case Err(e) => Err(DesignFailed(e))
    case Ok(design) => AssembleOutcome(env, q, chemistry, design, opts)
  }

  /** The stages after validation: chemistry errors surface as they are; then the module
      imports, where the blower module raises when the fluids library (the environment's absent
      correlation) is missing, whether or not a blower was requested; then the design block. */
  function SizeValid(env: Environment, q: Schemas.Request, json: Option<string>, opts: BlowerOptions)
    : (r: Result<Outcome, SizingError>)
    ensures ChemistryFor(env, json).Err? ==> r == Err(ChemistryRejected(ChemistryFor(env, json).error))
    ensures ChemistryFor(env, json).Ok? && env.correlation.None? ==> r == Err(FluidsMissing)
    ensures ChemistryFor(env, json).Ok? && env.correlation.Some? ==>
              r == SizeDesign(env, q, ChemistryFor(env, json).value, opts)
    ensures r.Err? ==> r.error.ChemistryRejected? || r.error.FluidsMissing? || IsDesignFailure(r.error)
    ensures r.Ok? ==> ChemistryFor(env, json) == Ok(r.value.chemistry) && env.correlation.Some?
  {
    match ChemistryFor(env, json)
    case Err(e) => Err(ChemistryRejected(e))
    case Ok(chemistry) =>
      if env.correlation.None? then Err(FluidsMissing)
      else
        var r := SizeDesign(env, q, chemistry, opts);
        assert r.Ok? ==> r.value.chemistry == chemistry;
        r
  }

  /** `heuristic_sizing`: validation errors first, then chemistry errors, then design failures.
      The chemistry JSON is the tool's own argument. */
  function Size(env: Environment, raw: Schemas.RawRequest, opts: BlowerOptions): (r: Result<Outcome, SizingError>)
    ensures Schemas.Validate(raw).Err? ==> r == Err(InvalidRequest(Schemas.Validate(raw).error))
    ensures Schemas.Validate(raw).Ok? ==> r == SizeValid(env, Schemas.Validate(raw).value, raw.chemistryJson, opts)
    ensures r.Err? ==> (r.error.InvalidRequest? <==> Schemas.Validate(raw).Err?)
    ensures r.Ok? ==> Schemas.Validate(raw) == Ok(r.value.request)
  {
    match Schemas.Validate(raw)
    case Err(fields) => Err(InvalidRequest(fields))
    case Ok(q) =>
      var r := SizeValid(env, q, raw.chemistryJson, opts);
      assert r.Ok? ==> r.value.request == q by {
        if r.Ok? {
          assert ChemistryFor(env, raw.chemistryJson).Ok?;
          assert DesignFor(env, q).Ok?;
        }
      }
      r
  }

  /** What a successful sizing reports: the design on the design basis, the chemistry prepared
      from the caller's JSON, the resolved Henry's constant, the application's molecular weight
      and gas phase, and the pH-drift warnings. */
  lemma SizeReports(env: Environment, raw: Schemas.RawRequest, opts: BlowerOptions)
    requires Size(env, raw, opts).Ok?
    ensures var o := Size(env, raw, opts).value;
            var name := Schemas.ApplicationName(o.request.application);
            && DesignFor(env, o.request) == Ok(o.design) && o.design.packingId.Some?
            && ChemistryFor(env, raw.chemistryJson) == Ok(o.chemistry)
            && o.henry == HenryFor(o.request)
            && o.molecularWeight == MolecularWeightFor(name) && o.gasPhase == GasPhaseFor(name)
            && o.warnings == DriftWarnings(o.request, DesignBasisFor(o.request, env.speciation).strippableFraction,
                                           o.henry, env.describe)
            && o.blower == (if opts.enabled then BlowerStage(o.design, env.catalog, o.request.temperatureC, opts,
                                                            env.correlation, env.work) else None)
  {
    var q := Schemas.Validate(raw).value;
    var chemistry := ChemistryFor(env, raw.chemistryJson).value;
    var design := DesignFor(env, q).value;
    assert Size(env, raw, opts) == AssembleOutcome(env, q, chemistry, design, opts);
  }

  /** The sizing succeeds exactly when the request validates, the chemistry prepares, the fluids
      library is present, and the design succeeds with a packing id. */
  lemma SizeSucceedsIff(env: Environment, raw: Schemas.RawRequest, opts: BlowerOptions)
    ensures Size(env, raw, opts).Ok? <==>
              Schemas.Validate(raw).Ok? && ChemistryFor(env, raw.chemistryJson).Ok? && env.correlation.Some?
              && DesignFor(env, Schemas.Validate(raw).value).Ok?
              && DesignFor(env, Schemas.Validate(raw).value).value.packingId.Some?
  {
    if Schemas.Validate(raw).Ok? && ChemistryFor(env, raw.chemistryJson).Ok? && env.correlation.Some? {
      var q := Schemas.Validate(raw).value;
      if DesignFor(env, q).Ok? {
        assert Size(env, raw, opts)
            == AssembleOutcome(env, q, ChemistryFor(env, raw.chemistryJson).value, DesignFor(env, q).value, opts);
      }
    }
  }

  /** Blower sizing never decides the outcome: with or without it the sizing succeeds or fails
      alike, and everything but the blower block is the same. */
  lemma BlowerNeverBlocksSizing(env: Environment, raw: Schemas.RawRequest, opts: BlowerOptions)
    ensures var on := Size(env, raw, opts.(enabled := true));
            var off := Size(env, raw, opts.(enabled := false));
            on.Ok? == off.Ok?
            && (on.Err? ==> on.error == off.error)
            && (on.Ok? ==> on.value.(blower := None) == off.value)
  {
    var on := opts.(enabled := true);
    var off := opts.(enabled := false);
    if Schemas.Validate(raw).Ok? {
      var q := Schemas.Validate(raw).value;
      if ChemistryFor(env, raw.chemistryJson).Ok? && env.correlation.Some? {
        var chemistry := ChemistryFor(env, raw.chemistryJson).value;
        if DesignFor(env, q).Ok? {
          var design := DesignFor(env, q).value;
          assert Size(env, raw, on) == AssembleOutcome(env, q, chemistry, design, on);
          assert Size(env, raw, off) == AssembleOutcome(env, q, chemistry, design, off);
        }
      }
    }
  }

  // The tool as written. The validated request has no chemistry attribute, so reading it raises
  // before the design block; and the outcome constructor is handed a keyword its dataclass does
  // not declare, so even a design that gets that far is re-raised as a design failure.

  /** The design block as written: the design's own failures, then the result schema's refusal of
      a missing packing id, then the TypeError of the outcome constructor for every design that
      reaches it. */
  function SizeDesignAsWritten(env: Environment, q: Schemas.Request): (r: Result<Outcome, SizingError>)
    ensures DesignFor(env, q).Err? ==> r == Err(DesignFailed(DesignFor(env, q).error))
    ensures r.Err? && IsDesignFailure(r.error)
  {
    match DesignFor(env, q)
    case Err(e) => Err(DesignFailed(e))
    case Ok(design) =>
      if design.packingId.None? then Err(MissingPackingId) else Err(UnexpectedKeyword(OutcomeChemistryKeyword))
  }

  /** `heuristic_sizing` as written: a request that validates fails reading its chemistry
      attribute. */
  function SizeAsWritten(env: Environment, raw: Schemas.RawRequest): (r: Result<Outcome, SizingError>)
    ensures r.Err?
    ensures r.error.InvalidRequest? <==> Schemas.Validate(raw).Err?
    ensures Schemas.Validate(raw).Err? ==> r.error == InvalidRequest(Schemas.Validate(raw).error)
  {
    match Schemas.Validate(raw)
    case Err(fields) => Err(InvalidRequest(fields))
    case Ok(_) => Err(MissingAttribute(Schemas.ChemistryKeyword))
  }

  /** Every request the corrected tool sizes fails as written, because the input model does not
      declare the chemistry keyword it is handed. */
  lemma AsWrittenSizingAlwaysFails(env: Environment, raw: Schemas.RawRequest, opts: BlowerOptions)
    requires Size(env, raw, opts).Ok?
    ensures !Schemas.HasAttribute(Schemas.ChemistryKeyword)
    ensures SizeAsWritten(env, raw) == Err(MissingAttribute(Schemas.ChemistryKeyword))
  {
    Schemas.ChemistryKeywordUndeclared();
  }

  /** Every design block the corrected tool completes fails as written, because the outcome
      dataclass does not declare the chemistry keyword it is handed. */
  lemma AsWrittenOutcomeRejected(env: Environment, q: Schemas.Request, chemistry: WaterChemistry.Prepared,
                                 opts: BlowerOptions)
    requires SizeDesign(env, q, chemistry, opts).Ok?
    ensures OutcomeChemistryKeyword !in OutcomeFieldNames
    ensures SizeDesignAsWritten(env, q) == Err(UnexpectedKeyword(OutcomeChemistryKeyword))
  {
  }
}
