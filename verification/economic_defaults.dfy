/** Economic defaults for degasser costing: CEPCI cost escalation, the default parameter set,
    packing material prices, merging user overrides over the defaults, and range validation.

    The CEPCI table is fixed at the values used when neither optional costing library is
    installed. Every parameter value is a real number.
 */
module EconomicDefaults {
  import opened Basics

  datatype EconomicError =
    | UnknownYear(year: int)
    | MissingParameter(param: Param)
    | UnknownPackingType(packingType: string)
    | OutOfRange(param: Param, value: real)

  // ---------------------------------------------------------------------------
  // CEPCI escalation
  // ---------------------------------------------------------------------------

  const CurrentYear: int := 2025

  /** `CEPCI_INDICES`: the Chemical Engineering Plant Cost Index by year. */
  function Cepci(year: int): (r: Option<real>)
    ensures r.Some? ==> r.value > 0.0
  {
    match year
    case 1984 => Some(322.7)
    case 1990 => Some(357.6)
    case 2001 => Some(397.0)
    case 2015 => Some(556.8)
    case 2017 => Some(567.5)
    case 2018 => Some(603.1)
    case 2019 => Some(607.5)
    case 2020 => Some(596.2)
    case 2023 => Some(816.0)
    case 2025 => Some(850.0)
    case _ => None
  }

  /** `cost * to / from`: a cost carried from one index level to another. */
  function Rescale(cost: real, from: real, to: real): (r: real)
    requires from > 0.0
    ensures r * from == cost * to
  {
    cost * (to / from)
  }

  /** `escalate_cost`: the base year is checked first, then the target year. */
  function Escalate(cost: real, yearFrom: int, yearTo: int): (r: Result<real, EconomicError>)
    ensures Cepci(yearFrom).None? ==> r == Err(UnknownYear(yearFrom))
    ensures Cepci(yearFrom).Some? && Cepci(yearTo).None? ==> r == Err(UnknownYear(yearTo))
    ensures r.Ok? <==> Cepci(yearFrom).Some? && Cepci(yearTo).Some?
    ensures r.Ok? ==> r.value == Rescale(cost, Cepci(yearFrom).value, Cepci(yearTo).value)
  {
    var from :- if Cepci(yearFrom).Some? then Ok(Cepci(yearFrom).value) else Err(UnknownYear(yearFrom));
    var to :- if Cepci(yearTo).Some? then Ok(Cepci(yearTo).value) else Err(UnknownYear(yearTo));
    Ok(Rescale(cost, from, to))
  }

  /** Escalating within one year changes nothing. */
  lemma EscalateSameYear(cost: real, year: int)
    requires Cepci(year).Some?
    ensures Escalate(cost, year, year) == Ok(cost)
  {
    RescaleSame(cost, Cepci(year).value);
  }

  lemma RescaleSame(cost: real, level: real)
    requires level > 0.0
    ensures Rescale(cost, level, level) == cost
  {
    var r := Rescale(cost, level, level);
    assert r * level == cost * level;
  }

  /** Escalating in two steps through any tabulated year equals escalating directly. */
  lemma EscalateComposes(cost: real, a: int, b: int, c: int)
    requires Cepci(a).Some? && Cepci(b).Some? && Cepci(c).Some?
    ensures Escalate(Escalate(cost, a, b).value, b, c) == Escalate(cost, a, c)
  {
    RescaleComposes(cost, Cepci(a).value, Cepci(b).value, Cepci(c).value);
  }

  lemma RescaleComposes(k: real, a: real, b: real, c: real)
    requires a > 0.0 && b > 0.0 && c > 0.0
    ensures Rescale(Rescale(k, a, b), b, c) == Rescale(k, a, c)
  {
    var x := Rescale(k, a, b);
    var y := Rescale(x, b, c);
    var z := Rescale(k, a, c);
    assert (y * a) * b == (x * a) * c;
    assert (x * a) * c == (k * c) * b;
    assert (y * a) * b == (z * a) * b;
    assert y * a == z * a;
  }

  /** Escalating there and back returns the original cost. */
  lemma EscalateRoundTrip(cost: real, a: int, b: int)
    requires Cepci(a).Some? && Cepci(b).Some?
    ensures Escalate(Escalate(cost, a, b).value, b, a) == Ok(cost)
  {
    EscalateComposes(cost, a, b, a);
    EscalateSameYear(cost, a);
  }

  /** Escalation preserves the order of costs, since every index is positive. */
  lemma EscalateMonotone(c1: real, c2: real, a: int, b: int)
    requires Cepci(a).Some? && Cepci(b).Some? && c1 <= c2
    ensures Escalate(c1, a, b).value <= Escalate(c2, a, b).value
  {
    RescaleMonotone(c1, c2, Cepci(a).value, Cepci(b).value);
  }

  lemma RescaleMonotone(c1: real, c2: real, from: real, to: real)
    requires from > 0.0 && to > 0.0 && c1 <= c2
    ensures Rescale(c1, from, to) <= Rescale(c2, from, to)
  {
    ScaleMonotone(c1, c2, to / from);
  }

  /** A cost in the given year's dollars brought to current dollars, for tabulated years. */
  function ToCurrent(cost: real, year: int): real
    requires Cepci(year).Some?
  {
    Escalate(cost, year, CurrentYear).value
  }

  // ---------------------------------------------------------------------------
  // The default parameter set
  // ---------------------------------------------------------------------------

  /** The parameters of `get_default_economic_params`; `ParamName` gives each one's key. */
  datatype Param =
    | Wacc | PlantLifetimeYears | UtilizationFactor | ElectricityCost | BlowerEfficiency
    | MotorEfficiency | AirPipingFactor | BlowerBuildingCost | VesselShellCostCoefficient
    | VesselShellCostExponent | VesselFoundationFraction | PlasticPallCost | PlasticRaschigCost
    | CeramicCost | StructuredCost | LiquidDistributorBase | LiquidDistributorDiameterFactor
    | GasDistributorBase | GasDistributorDiameterFactor | DemisterCost | PumpEfficiency | AcidCost
    | BaseCost | LandCostPercent | WorkingCapitalPercent | SalariesPercent | BenefitPercent
    | MaintenancePercent | LaboratoryFeesPercent | InsuranceAndTaxesPercent
    | PackingReplacementFraction | InstrumentationFraction | ElectricalControlsFraction

  function ParamName(p: Param): string
  {
    match p
    case Wacc => "wacc"
    case PlantLifetimeYears => "plant_lifetime_years"
    case UtilizationFactor => "utilization_factor"
    case ElectricityCost => "electricity_cost_usd_kwh"
    case BlowerEfficiency => "blower_efficiency"
    case MotorEfficiency => "motor_efficiency"
    case AirPipingFactor => "air_piping_factor_AFF"
    case BlowerBuildingCost => "blower_building_cost_usd_ft2"
    case VesselShellCostCoefficient => "vessel_shell_cost_coefficient"
    case VesselShellCostExponent => "vessel_shell_cost_exponent"
    case VesselFoundationFraction => "vessel_foundation_fraction"
    case PlasticPallCost => "packing_plastic_pall_usd_m3"
    case PlasticRaschigCost => "packing_plastic_raschig_usd_m3"
    case CeramicCost => "packing_ceramic_usd_m3"
    case StructuredCost => "packing_structured_usd_m3"
    case LiquidDistributorBase => "liquid_distributor_base_usd"
    case LiquidDistributorDiameterFactor => "liquid_distributor_diameter_factor"
    case GasDistributorBase => "gas_distributor_base_usd"
    case GasDistributorDiameterFactor => "gas_distributor_diameter_factor"
    case DemisterCost => "demister_usd_per_m2"
    case PumpEfficiency => "pump_efficiency"
    case AcidCost => "acid_HCl_cost_usd_kg"
    case BaseCost => "base_NaOH_cost_usd_kg"
    case LandCostPercent => "land_cost_percent_FCI"
    case WorkingCapitalPercent => "working_capital_percent_FCI"
    case SalariesPercent => "salaries_percent_FCI"
    case BenefitPercent => "benefit_percent_of_salary"
    case MaintenancePercent => "maintenance_costs_percent_FCI"
    case LaboratoryFeesPercent => "laboratory_fees_percent_FCI"
    case InsuranceAndTaxesPercent => "insurance_and_taxes_percent_FCI"
    case PackingReplacementFraction => "packing_replacement_fraction"
    case InstrumentationFraction => "instrumentation_fraction_capex"
    case ElectricalControlsFraction => "electrical_controls_fraction_capex"
  }

  /** A parameter set: an insertion-ordered dict from parameter to value. */
  type Params = Dict<Param, real>

  /** The escalated defaults: Tang's 1990 vessel-shell coefficient and the 2019 EPA packing and
      internals prices, in current dollars. */
  const VesselShellCoefficientUsd: real := ToCurrent(1246.1, 1990)
  const PlasticPallUsd: real := ToCurrent(115.0, 2019)
  const PlasticRaschigUsd: real := ToCurrent(95.0, 2019)
  const CeramicUsd: real := ToCurrent(2400.0, 2019)
  const StructuredUsd: real := ToCurrent(350.0, 2019)
  const LiquidDistributorBaseUsd: real := ToCurrent(500.0, 2019)
  const GasDistributorBaseUsd: real := ToCurrent(300.0, 2019)
  const DemisterUsd: real := ToCurrent(150.0, 2019)

  /** The default value of each parameter; the application argument of
      `get_default_economic_params` does not change them. */
  function DefaultValue(p: Param): real
  {
    match p
    case Wacc => 0.093
    case PlantLifetimeYears => 30.0
    case UtilizationFactor => 0.9
    case ElectricityCost => 0.07
    case BlowerEfficiency => 0.7
    case MotorEfficiency => 0.7
    case AirPipingFactor => 1.5
    case BlowerBuildingCost => 90.0
    case VesselShellCostCoefficient => VesselShellCoefficientUsd
    case VesselShellCostExponent => 0.71
    case VesselFoundationFraction => 0.15
    case PlasticPallCost => PlasticPallUsd
    case PlasticRaschigCost => PlasticRaschigUsd
    case CeramicCost => CeramicUsd
    case StructuredCost => StructuredUsd
    case LiquidDistributorBase => LiquidDistributorBaseUsd
    case LiquidDistributorDiameterFactor => 250.0
    case GasDistributorBase => GasDistributorBaseUsd
    case GasDistributorDiameterFactor => 150.0
    case DemisterCost => DemisterUsd
    case PumpEfficiency => 0.75
    case AcidCost => 0.17
    case BaseCost => 0.59
    case LandCostPercent => 0.0015
    case WorkingCapitalPercent => 0.05
    case SalariesPercent => 0.001
    case BenefitPercent => 0.9
    case MaintenancePercent => 0.008
    case LaboratoryFeesPercent => 0.003
    case InsuranceAndTaxesPercent => 0.002
    case PackingReplacementFraction => 0.05
    case InstrumentationFraction => 0.10
    case ElectricalControlsFraction => 0.12
  }

  /** The number of default parameters. */
  const ParamCount: nat := 33

  /** Each parameter's position in the insertion order of the default dict. */
  function DefaultPosition(p: Param): nat
  {
    match p
    case Wacc => 0
    case PlantLifetimeYears => 1
    case UtilizationFactor => 2
    case ElectricityCost => 3
    case BlowerEfficiency => 4
    case MotorEfficiency => 5
    case AirPipingFactor => 6
    case BlowerBuildingCost => 7
    case VesselShellCostCoefficient => 8
    case VesselShellCostExponent => 9
    case VesselFoundationFraction => 10
    case PlasticPallCost => 11
    case PlasticRaschigCost => 12
    case CeramicCost => 13
    case StructuredCost => 14
    case LiquidDistributorBase => 15
    case LiquidDistributorDiameterFactor => 16
    case GasDistributorBase => 17
    case GasDistributorDiameterFactor => 18
    case DemisterCost => 19
    case PumpEfficiency => 20
    case AcidCost => 21
    case BaseCost => 22
    case LandCostPercent => 23
    case WorkingCapitalPercent => 24
    case SalariesPercent => 25
    case BenefitPercent => 26
    case MaintenancePercent => 27
    case LaboratoryFeesPercent => 28
    case InsuranceAndTaxesPercent => 29
    case PackingReplacementFraction => 30
    case InstrumentationFraction => 31
    case ElectricalControlsFraction => 32
  }

  /** The parameter at each position of the default dict. */
  function ParamAt(i: nat): Param
    requires i < ParamCount
  {
    match i
    case 0 => Wacc
    case 1 => PlantLifetimeYears
    case 2 => UtilizationFactor
    case 3 => ElectricityCost
    case 4 => BlowerEfficiency
    case 5 => MotorEfficiency
    case 6 => AirPipingFactor
    case 7 => BlowerBuildingCost
    case 8 => VesselShellCostCoefficient
    case 9 => VesselShellCostExponent
    case 10 => VesselFoundationFraction
    case 11 => PlasticPallCost
    case 12 => PlasticRaschigCost
    case 13 => CeramicCost
    case 14 => StructuredCost
    case 15 => LiquidDistributorBase
    case 16 => LiquidDistributorDiameterFactor
    case 17 => GasDistributorBase
    case 18 => GasDistributorDiameterFactor
    case 19 => DemisterCost
    case 20 => PumpEfficiency
    case 21 => AcidCost
    case 22 => BaseCost
    case 23 => LandCostPercent
    case 24 => WorkingCapitalPercent
    case 25 => SalariesPercent
    case 26 => BenefitPercent
    case 27 => MaintenancePercent
    case 28 => LaboratoryFeesPercent
    case 29 => InsuranceAndTaxesPercent
    case 30 => PackingReplacementFraction
    case 31 => InstrumentationFraction
    case _ => ElectricalControlsFraction
  }

  /** Positions and parameters correspond one to one. */
  lemma PositionOfParamAt(i: nat)
    requires i < ParamCount
    ensures DefaultPosition(ParamAt(i)) == i
  {
  }

  lemma ParamAtPosition(p: Param)
    ensures DefaultPosition(p) < ParamCount && ParamAt(DefaultPosition(p)) == p
  {
  }

  /** `get_default_economic_params()`: each parameter in order with its default value. */
  function DefaultParams(): (d: Params)
    ensures |d| == ParamCount
    ensures forall i :: 0 <= i < |d| ==> d[i] == (ParamAt(i), DefaultValue(ParamAt(i)))
  {
    seq(ParamCount, i requires 0 <= i < ParamCount => (ParamAt(i), DefaultValue(ParamAt(i))))
  }

  const Defaults: Params := DefaultParams()

  /** No parameter is listed twice. */
  lemma DefaultsUnique()
    ensures UniqueKeys(Defaults)
  {
    forall i, j | 0 <= i < j < |Defaults| ensures Defaults[i].0 != Defaults[j].0 {
      PositionOfParamAt(i);
      PositionOfParamAt(j);
    }
  }

  /** Every parameter is present in the defaults, with its default value. */
  lemma GetDefault(p: Param)
    ensures Get(Defaults, p) == Some(DefaultValue(p))
  {
    DefaultsUnique();
    ParamAtPosition(p);
    GetAt(Defaults, DefaultPosition(p));
  }

  // ---------------------------------------------------------------------------
  // Packing material price
  // ---------------------------------------------------------------------------

  /** The parameter that prices each packing type. */
  function PackingCostParam(packingType: string): (r: Option<Param>)
    ensures r.Some? ==> r.value in {PlasticPallCost, PlasticRaschigCost, CeramicCost, StructuredCost}
  {
    match packingType
    case "plastic_pall" => Some(PlasticPallCost)
    case "plastic_raschig" => Some(PlasticRaschigCost)
    case "ceramic" => Some(CeramicCost)
    case "structured" => Some(StructuredCost)
    case _ => None
  }

  /** `params[key]`: a missing key raises. */
  function Lookup(params: Params, p: Param): (r: Result<real, EconomicError>)
    ensures r.Ok? <==> p in KeySet(params)
    ensures r.Ok? ==> Get(params, p) == Some(r.value)
    ensures r.Err? ==> r.error == MissingParameter(p)
  {
    match Get(params, p)
    case Some(v) => Ok(v)
    case None => Err(MissingParameter(p))
  }

  /** Whether a parameter set holds all four packing prices. */
  predicate Priced(params: Params)
  {
    PlasticPallCost in KeySet(params) && PlasticRaschigCost in KeySet(params) && CeramicCost in KeySet(params)
    && StructuredCost in KeySet(params)
  }

  /** `get_packing_cost_usd_m3`: the four prices are read before the type is checked, so a parameter
      set lacking any of them fails even for a known type; no parameter set means the defaults. */
  function PackingCost(packingType: string, params: Option<Params>): (r: Result<real, EconomicError>)
    ensures var p := if params.None? then Defaults else params.value;
            && (r.Ok? <==> Priced(p) && PackingCostParam(packingType).Some?)
            && (r.Ok? ==> Get(p, PackingCostParam(packingType).value) == Some(r.value))
            && (Priced(p) && PackingCostParam(packingType).None? ==> r == Err(UnknownPackingType(packingType)))
            && (!Priced(p) ==> r.Err? && r.error.MissingParameter?)
  {
    var p := if params.None? then Defaults else params.value;
    var pall :- Lookup(p, PlasticPallCost);
    var raschig :- Lookup(p, PlasticRaschigCost);
    var ceramic :- Lookup(p, CeramicCost);
    var structured :- Lookup(p, StructuredCost);
    match packingType
    case "plastic_pall" => Ok(pall)
    case "plastic_raschig" => Ok(raschig)
    case "ceramic" => Ok(ceramic)
    case "structured" => Ok(structured)
    case _ => Err(UnknownPackingType(packingType))
  }

  /** The price lookup reports the first missing price in reading order. */
  lemma PackingCostMissingFirst(packingType: string, params: Params)
    requires PlasticPallCost in KeySet(params) && PlasticRaschigCost !in KeySet(params)
    ensures PackingCost(packingType, Some(params)) == Err(MissingParameter(PlasticRaschigCost))
  {
  }

  /** Without parameters, the default price of the type applies; an unknown type is still
      rejected. */
  lemma DefaultPackingPrices(packingType: string)
    ensures PackingCostParam(packingType).Some? ==>
              PackingCost(packingType, None) == Ok(DefaultValue(PackingCostParam(packingType).value))
    ensures PackingCostParam(packingType).None? ==> PackingCost(packingType, None) == Err(UnknownPackingType(packingType))
  {
    GetDefault(PlasticPallCost);
    GetDefault(PlasticRaschigCost);
    GetDefault(CeramicCost);
    GetDefault(StructuredCost);
    if PackingCostParam(packingType).Some? {
      GetDefault(PackingCostParam(packingType).value);
    }
  }

  /** The default prices are the 2019 EPA prices in current dollars. */
  lemma DefaultPricesAreEscalated()
    ensures DefaultValue(PackingCostParam("plastic_pall").value) == PlasticPallUsd == ToCurrent(115.0, 2019)
    ensures DefaultValue(PackingCostParam("plastic_raschig").value) == PlasticRaschigUsd == ToCurrent(95.0, 2019)
    ensures DefaultValue(PackingCostParam("ceramic").value) == CeramicUsd == ToCurrent(2400.0, 2019)
    ensures DefaultValue(PackingCostParam("structured").value) == StructuredUsd == ToCurrent(350.0, 2019)
  {
  }

  // ---------------------------------------------------------------------------
  // Merging user parameters over the defaults
  // ---------------------------------------------------------------------------

  /** `{**defaults, **user}`: the defaults in their order, then the user's new keys, every user
      value overriding. */
  function Merge(defaults: Params, user: Params): Params
  {
    FromPairs(defaults + user)
  }

  /** `apply_economic_defaults`: no user parameters means the defaults themselves. */
  function ApplyDefaults(user: Option<Params>, application: string): (r: Params)
    ensures user.None? ==> r == Defaults
    ensures user.Some? ==> KeySet(r) == KeySet(Defaults) + KeySet(user.value)
    ensures UniqueKeys(r)
  {
    DefaultsUnique();
    if user.None? then Defaults
    else
      FromPairsKeys(Defaults + user.value);
      KeySetAppend(Defaults, user.value);
      FromPairsHasUniqueKeys(Defaults + user.value);
      Merge(Defaults, user.value)
  }

  /** A parameter the user supplies reads the user's value; any other reads its default. */
  lemma UserValuesWin(user: Params, application: string, p: Param)
    requires UniqueKeys(user)
    ensures p in KeySet(user) ==> Get(ApplyDefaults(Some(user), application), p) == Get(user, p)
    ensures p !in KeySet(user) ==> Get(ApplyDefaults(Some(user), application), p) == Some(DefaultValue(p))
  {
    DefaultsUnique();
    GetDefault(p);
    MergeGet(Defaults, user, p);
  }

  /** In a merge of two dicts, a key of the second reads its value there, any other key reads
      the first. */
  lemma MergeGet<K(!new), V>(first: Dict<K, V>, second: Dict<K, V>, k: K)
    requires UniqueKeys(first) && UniqueKeys(second)
    ensures Get(FromPairs(first + second), k) == if k in KeySet(second) then Get(second, k) else Get(first, k)
  {
    FromPairsAppendGet(first, second, k);
    FromPairsUnique(first);
    FromPairsUnique(second);
  }

  /** Merging an empty override changes nothing. */
  lemma EmptyOverrideKeepsDefaults(application: string)
    ensures ApplyDefaults(Some([]), application) == Defaults
  {
    DefaultsUnique();
    assert Defaults + [] == Defaults;
    FromPairsUnique(Defaults);
  }

  lemma KeySetAppend<K, V>(a: Dict<K, V>, b: Dict<K, V>)
    ensures KeySet(a + b) == KeySet(a) + KeySet(b)
  {
    forall k | k in KeySet(a + b) ensures k in KeySet(a) + KeySet(b) {
      var i :| 0 <= i < |a + b| && (a + b)[i].0 == k;
      if i >= |a| { assert b[i - |a|].0 == k; }
    }
    forall k | k in KeySet(a) + KeySet(b) ensures k in KeySet(a + b) {
      if k in KeySet(a) {
        var i :| 0 <= i < |a| && a[i].0 == k;
        assert (a + b)[i].0 == k;
      } else {
        var i :| 0 <= i < |b| && b[i].0 == k;
        assert (a + b)[|a| + i].0 == k;
      }
    }
  }

  // ---------------------------------------------------------------------------
  // Range validation
  // ---------------------------------------------------------------------------

  /** One range check: a parameter between two bounds, each open or closed. */
  datatype RangeCheck = RangeCheck(param: Param, lo: real, hi: real, loOpen: bool, hiOpen: bool)

  predicate Within(c: RangeCheck, x: real)
  {
    (if c.loOpen then c.lo < x else c.lo <= x) && (if c.hiOpen then x < c.hi else x <= c.hi)
  }

  /** The checks of `validate_economic_params`, in the order it makes them. */
  const RangeChecks: seq<RangeCheck> := [
    RangeCheck(Wacc, 0.0, 0.3, true, true),
    RangeCheck(PlantLifetimeYears, 5.0, 50.0, false, false),
    RangeCheck(UtilizationFactor, 0.5, 1.0, false, false),
    RangeCheck(ElectricityCost, 0.0, 1.0, true, true),
    RangeCheck(BlowerEfficiency, 0.5, 0.9, false, false),
    RangeCheck(VesselShellCostExponent, 0.5, 1.0, false, false),
    RangeCheck(PackingReplacementFraction, 0.0, 0.2, false, false)
  ]

  /** Whether one check passes: the parameter is present and within range. */
  predicate Passes(params: Params, c: RangeCheck)
  {
    Get(params, c.param).Some? && Within(c, Get(params, c.param).value)
  }

  /** The error one failing check raises: a missing key, or the value out of range. */
  function Failure(params: Params, c: RangeCheck): EconomicError
  {
    if Get(params, c.param).None? then MissingParameter(c.param) else OutOfRange(c.param, Get(params, c.param).value)
  }

  /** Running the checks in order, stopping at the first that fails. */
  function RunChecks(params: Params, checks: seq<RangeCheck>): (r: Result<(), EconomicError>)
    ensures r.Ok? <==> forall i :: 0 <= i < |checks| ==> Passes(params, checks[i])
  {
    if |checks| == 0 then Ok(())
    else if !Passes(params, checks[0]) then Err(Failure(params, checks[0]))
    else
      var rest := RunChecks(params, checks[1..]);
      assert forall i :: 1 <= i < |checks| ==> checks[i] == checks[1..][i - 1];
      rest
  }

  /** A failure names the first check that fails; every earlier check passes. */
  lemma {:induction false} RunChecksReportsFirst(params: Params, checks: seq<RangeCheck>) returns (i: nat)
    requires RunChecks(params, checks).Err?
    ensures i < |checks| && !Passes(params, checks[i])
    ensures forall j :: 0 <= j < i ==> Passes(params, checks[j])
    ensures RunChecks(params, checks).error == Failure(params, checks[i])
  {
    if !Passes(params, checks[0]) {
      i := 0;
    } else {
      var k := RunChecksReportsFirst(params, checks[1..]);
      i := k + 1;
      assert checks[i] == checks[1..][k];
      forall j | 0 <= j < i ensures Passes(params, checks[j]) {
        if j > 0 { assert checks[j] == checks[1..][j - 1]; }
      }
    }
  }

  /** `validate_economic_params`. */
  function ValidateParams(params: Params): (r: Result<(), EconomicError>)
    ensures r.Ok? <==> forall i :: 0 <= i < |RangeChecks| ==> Passes(params, RangeChecks[i])
  {
    RunChecks(params, RangeChecks)
  }

  /** Validation passes exactly when each of the seven parameters lies in its stated range. */
  lemma ValidateRanges(params: Params)
    ensures ValidateParams(params).Ok? <==>
              && Get(params, Wacc).Some? && 0.0 < Get(params, Wacc).value < 0.3
              && Get(params, PlantLifetimeYears).Some? && 5.0 <= Get(params, PlantLifetimeYears).value <= 50.0
              && Get(params, UtilizationFactor).Some? && 0.5 <= Get(params, UtilizationFactor).value <= 1.0
              && Get(params, ElectricityCost).Some? && 0.0 < Get(params, ElectricityCost).value < 1.0
              && Get(params, BlowerEfficiency).Some? && 0.5 <= Get(params, BlowerEfficiency).value <= 0.9
              && Get(params, VesselShellCostExponent).Some? && 0.5 <= Get(params, VesselShellCostExponent).value <= 1.0
              && Get(params, PackingReplacementFraction).Some? && 0.0 <= Get(params, PackingReplacementFraction).value <= 0.2
  {
    assert Passes(params, RangeChecks[0]) <==> Get(params, Wacc).Some? && 0.0 < Get(params, Wacc).value < 0.3;
    if ValidateParams(params).Ok? {
      assert Passes(params, RangeChecks[1]) && Passes(params, RangeChecks[2]) && Passes(params, RangeChecks[3]);
      assert Passes(params, RangeChecks[4]) && Passes(params, RangeChecks[5]) && Passes(params, RangeChecks[6]);
    }
  }

  /** The default parameter set passes validation. */
  lemma DefaultsValid()
    ensures ValidateParams(Defaults).Ok?
  {
    forall i | 0 <= i < |RangeChecks| ensures Passes(Defaults, RangeChecks[i]) {
      GetDefault(RangeChecks[i].param);
      DefaultWithinRange(i);
    }
  }

  /** Each checked default lies in its range. */
  lemma DefaultWithinRange(i: nat)
    requires i < |RangeChecks|
    ensures Within(RangeChecks[i], DefaultValue(RangeChecks[i].param))
  {
  }

  /** Overriding only parameters that validation does not look at keeps the defaults valid. */
  lemma UncheckedOverridesStayValid(user: Params, application: string)
    requires UniqueKeys(user)
    requires forall i :: 0 <= i < |RangeChecks| ==> RangeChecks[i].param !in KeySet(user)
    ensures ValidateParams(ApplyDefaults(Some(user), application)).Ok?
  {
    DefaultsValid();
    var merged := ApplyDefaults(Some(user), application);
    forall i | 0 <= i < |RangeChecks| ensures Passes(merged, RangeChecks[i]) {
      UserValuesWin(user, application, RangeChecks[i].param);
      GetDefault(RangeChecks[i].param);
      assert Passes(Defaults, RangeChecks[i]);
    }
  }
}
