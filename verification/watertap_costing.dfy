/** The economic metrics of a costed degasser - annual water production, the present-value and
    capital-recovery annuity factors, net present value, levelised cost of water and simple
    payback - and the percentage breakdown of capital cost by component.

    The capital and operating costs themselves come from the flowsheet costing blocks, which are
    not part of this model: they are inputs here. Real exponentiation is a parameter.
 */
module WatertapCosting {
  import opened Basics
  import ED = EconomicDefaults

  const HoursPerYear: real := 8760.0
  /** US dollars per m^3 to US dollars per 1000 US gallons: 1000 gal = 3.78541 m^3. */
  const CubicMetresPer1000Gallons: real := 3.78541

  /** Real exponentiation `x ** y`. */
  type Pow = (real, real) -> real

  datatype CostingError = MissingInput(param: ED.Param) | DivisionByZero

  /** The returned metrics; payback is +infinity when there is no operating cost. */
  datatype Metrics = Metrics(
    npvUsd: real, lcowUsdPerM3: real, lcowUsdPer1000Gal: real, paybackYears: Ext,
    annualizedTotalCost: real, capitalRecoveryFactor: real, presentValueOpex: real, annualWaterM3: real)

  /** The annuity factors for a discount rate and a lifetime. */
  datatype Annuity = Annuity(presentValue: real, capitalRecovery: real)

  /** `pv = (1 - (1+r)^-n)/r` and `crf = r(1+r)^n/((1+r)^n - 1)` for a positive rate; `n` and `1/n`
      otherwise. A zero divisor raises. */
  function AnnuityFactors(wacc: real, lifetime: real, pow: Pow): (r: Result<Annuity, CostingError>)
    ensures wacc <= 0.0 ==> (r.Ok? <==> lifetime != 0.0)
    ensures wacc <= 0.0 && r.Ok? ==> r.value.presentValue == lifetime && r.value.capitalRecovery * lifetime == 1.0
    ensures wacc > 0.0 ==> (r.Ok? <==> pow(1.0 + wacc, lifetime) != 1.0)
    ensures wacc > 0.0 && r.Ok? ==>
              r.value.presentValue * wacc == 1.0 - pow(1.0 + wacc, -lifetime)
              && r.value.capitalRecovery * (pow(1.0 + wacc, lifetime) - 1.0) == wacc * pow(1.0 + wacc, lifetime)
  {
    if wacc > 0.0 then
      var growth := pow(1.0 + wacc, lifetime);
      if growth - 1.0 == 0.0 then Err(DivisionByZero)
      else
        var pv := (1.0 - pow(1.0 + wacc, -lifetime)) / wacc;
        var crf := wacc * growth / (growth - 1.0);
        Ok(Annuity(pv, crf))
    else if lifetime == 0.0 then Err(DivisionByZero)
    else Ok(Annuity(lifetime, 1.0 / lifetime))
  }

  /** With exponentiation obeying `x^-n * x^n = 1`, the two factors are reciprocals: recovering the
      capital each year for the lifetime is worth exactly the capital today. */
  lemma AnnuityReciprocal(wacc: real, lifetime: real, pow: Pow)
    requires AnnuityFactors(wacc, lifetime, pow).Ok?
    requires wacc > 0.0 ==> pow(1.0 + wacc, -lifetime) * pow(1.0 + wacc, lifetime) == 1.0
    ensures var a := AnnuityFactors(wacc, lifetime, pow).value;
            a.presentValue * a.capitalRecovery == 1.0
  {
    var a := AnnuityFactors(wacc, lifetime, pow).value;
    if wacc > 0.0 {
      ReciprocalFactors(wacc, pow(1.0 + wacc, lifetime), pow(1.0 + wacc, -lifetime), a.presentValue, a.capitalRecovery);
    }
  }

  /** `pv*r = 1 - q`, `crf*(g - 1) = r*g` and `q*g = 1` give `pv*crf = 1`. */
  lemma ReciprocalFactors(r: real, g: real, q: real, pv: real, crf: real)
    requires r > 0.0 && g != 1.0 && q * g == 1.0
    requires pv * r == 1.0 - q && crf * (g - 1.0) == r * g
    ensures pv * crf == 1.0
  {
    calc {
      (pv * crf) * (r * (g - 1.0));
      (pv * r) * (crf * (g - 1.0));
      (1.0 - q) * (r * g);
      r * g - (q * g) * r;
      r * (g - 1.0);
    }
    assert r * (g - 1.0) != 0.0;
  }

  /** `payback_years`: capital over operating cost, or +infinity without operating cost. */
  function Payback(capex: real, opex: real): (r: Ext)
    ensures r.NaN? == false
    ensures opex > 0.0 <==> r.Finite?
    ensures r.Finite? ==> r.v * opex == capex
  {
    if opex > 0.0 then Finite(capex / opex) else PosInf
  }

  /** `economic_params[key]`: a missing key raises. */
  function Read(params: ED.Params, p: ED.Param): (r: Result<real, CostingError>)
    ensures r.Ok? <==> Get(params, p).Some?
    ensures r.Ok? ==> r.value == Get(params, p).value
    ensures r.Err? ==> r.error == MissingInput(p)
  {
    if Get(params, p).Some? then Ok(Get(params, p).value) else Err(MissingInput(p))
  }

  /** The three parameters the metrics read, present. */
  predicate HasInputs(params: ED.Params)
  {
    Get(params, ED.Wacc).Some? && Get(params, ED.PlantLifetimeYears).Some? && Get(params, ED.UtilizationFactor).Some?
  }

  function AnnualWater(flowM3h: real, params: ED.Params): real
    requires HasInputs(params)
  {
    flowM3h * HoursPerYear * Get(params, ED.UtilizationFactor).value
  }

  function FactorsFor(params: ED.Params, pow: Pow): Result<Annuity, CostingError>
    requires HasInputs(params)
  {
    AnnuityFactors(Get(params, ED.Wacc).value, Get(params, ED.PlantLifetimeYears).value, pow)
  }

  /** The metrics from the costs, the annual water production and the annuity factors. */
  function MetricsFrom(capex: real, opex: real, annualWater: real, a: Annuity): (m: Metrics)
    requires annualWater != 0.0
    ensures m.annualWaterM3 == annualWater && m.capitalRecoveryFactor == a.capitalRecovery
    ensures m.presentValueOpex == opex * a.presentValue
    ensures m.npvUsd == -(capex + m.presentValueOpex)
    ensures m.annualizedTotalCost == capex * m.capitalRecoveryFactor + opex
    ensures m.lcowUsdPerM3 * annualWater == m.annualizedTotalCost
    ensures m.lcowUsdPer1000Gal == m.lcowUsdPerM3 * CubicMetresPer1000Gallons
    ensures m.paybackYears == Payback(capex, opex)
  {
    var pvOpex := opex * a.presentValue;
    var annualized := capex * a.capitalRecovery + opex;
    var lcow := annualized / annualWater;
    Metrics(-(capex + pvOpex), lcow, lcow * CubicMetresPer1000Gallons, Payback(capex, opex),
            annualized, a.capitalRecovery, pvOpex, annualWater)
  }

  /** `calculate_economic_metrics`: the parameters are read in the order wacc, lifetime,
      utilisation; a zero divisor raises. */
  function EconomicMetrics(capex: real, opex: real, flowM3h: real, params: ED.Params, pow: Pow)
    : (r: Result<Metrics, CostingError>)
    ensures Get(params, ED.Wacc).None? ==> r == Err(MissingInput(ED.Wacc))
    ensures Get(params, ED.Wacc).Some? && Get(params, ED.PlantLifetimeYears).None? ==>
              r == Err(MissingInput(ED.PlantLifetimeYears))
    ensures r.Ok? <==> HasInputs(params) && FactorsFor(params, pow).Ok? && AnnualWater(flowM3h, params) != 0.0
    ensures r.Ok? ==> r.value == MetricsFrom(capex, opex, AnnualWater(flowM3h, params), FactorsFor(params, pow).value)
  {
    var wacc :- Read(params, ED.Wacc);
    var lifetime :- Read(params, ED.PlantLifetimeYears);
    var utilization :- Read(params, ED.UtilizationFactor);
    var annualWater := flowM3h * HoursPerYear * utilization;
    var factors :- AnnuityFactors(wacc, lifetime, pow);
    if annualWater == 0.0 then Err(DivisionByZero)
    else Ok(MetricsFrom(capex, opex, annualWater, factors))
  }

  /** The net present cost is the annualised cost carried over the lifetime: `-npv = annualised*pv`
      whenever exponentiation obeys `x^-n * x^n = 1`. */
  lemma NpvIsAnnualizedOverLifetime(capex: real, opex: real, annualWater: real, wacc: real, lifetime: real, pow: Pow)
    requires AnnuityFactors(wacc, lifetime, pow).Ok? && annualWater != 0.0
    requires wacc > 0.0 ==> pow(1.0 + wacc, -lifetime) * pow(1.0 + wacc, lifetime) == 1.0
    ensures var a := AnnuityFactors(wacc, lifetime, pow).value;
            var m := MetricsFrom(capex, opex, annualWater, a);
            -m.npvUsd == m.annualizedTotalCost * a.presentValue
  {
    var a := AnnuityFactors(wacc, lifetime, pow).value;
    var m := MetricsFrom(capex, opex, annualWater, a);
    AnnuityReciprocal(wacc, lifetime, pow);
    assert m.annualizedTotalCost * a.presentValue
        == capex * (a.presentValue * a.capitalRecovery) + opex * a.presentValue;
  }

  /** With non-negative costs, a non-negative lifetime and `(1+r)^-n <= 1`, the net present value
      is a cost: never positive. */
  lemma NpvNonPositive(capex: real, opex: real, annualWater: real, wacc: real, lifetime: real, pow: Pow)
    requires AnnuityFactors(wacc, lifetime, pow).Ok? && annualWater != 0.0
    requires capex >= 0.0 && opex >= 0.0
    requires wacc > 0.0 ==> pow(1.0 + wacc, -lifetime) <= 1.0
    requires wacc <= 0.0 ==> lifetime >= 0.0
    ensures MetricsFrom(capex, opex, annualWater, AnnuityFactors(wacc, lifetime, pow).value).npvUsd <= 0.0
  {
    var a := AnnuityFactors(wacc, lifetime, pow).value;
    if wacc > 0.0 {
      FactorNonNegative(a.presentValue, wacc);
    }
    ScaleMonotone(0.0, opex, a.presentValue);
  }

  /** A larger capital cost never lowers the levelised cost of water, for a positive production
      and a non-negative capital recovery factor. */
  lemma LcowGrowsWithCapex(capex1: real, capex2: real, opex: real, annualWater: real, a: Annuity)
    requires capex1 <= capex2 && annualWater > 0.0 && a.capitalRecovery >= 0.0
    ensures MetricsFrom(capex1, opex, annualWater, a).lcowUsdPerM3 <= MetricsFrom(capex2, opex, annualWater, a).lcowUsdPerM3
  {
    var m1, m2 := MetricsFrom(capex1, opex, annualWater, a), MetricsFrom(capex2, opex, annualWater, a);
    ScaleMonotone(capex1, capex2, a.capitalRecovery);
    assert m1.lcowUsdPerM3 * annualWater <= m2.lcowUsdPerM3 * annualWater;
    if m1.lcowUsdPerM3 > m2.lcowUsdPerM3 {
      ScaleMonotone(m2.lcowUsdPerM3, m1.lcowUsdPerM3, annualWater);
    }
  }

  // ---------------------------------------------------------------------------
  // Capital cost breakdown
  // ---------------------------------------------------------------------------

  /** Component costs by name, in insertion order. */
  type Costs = Dict<string, real>

  function Total(costs: Costs): real
  {
    if |costs| == 0 then 0.0 else costs[0].1 + Total(costs[1..])
  }

  /** Each component's share of a total, in percent. */
  function Shares(costs: Costs, total: real): (r: Costs)
    requires total != 0.0
    ensures |r| == |costs|
    ensures forall i :: 0 <= i < |costs| ==> r[i].0 == costs[i].0 && r[i].1 * total == costs[i].1 * 100.0
  {
    seq(|costs|, i requires 0 <= i < |costs| => (costs[i].0, costs[i].1 / total * 100.0))
  }

  /** `cost_breakdown_pct`: the share of each capital component in the total; a zero total raises. */
  function Breakdown(costs: Costs): (r: Result<Costs, CostingError>)
    ensures r.Err? <==> Total(costs) == 0.0
    ensures r.Ok? ==> KeySet(r.value) == KeySet(costs)
    ensures r.Ok? ==> Total(r.value) == 100.0
    ensures r.Ok? ==> |r.value| == |costs|
                      && forall i :: 0 <= i < |costs| ==>
                           r.value[i].0 == costs[i].0 && r.value[i].1 * Total(costs) == costs[i].1 * 100.0
  {
    var total := Total(costs);
    if total == 0.0 then Err(DivisionByZero)
    else
      var shares := Shares(costs, total);
      SharesKeys(costs, total);
      SharesTotal(costs, total);
      assert Total(costs) / total == 1.0;
      Ok(shares)
  }

  lemma SharesKeys(costs: Costs, total: real)
    requires total != 0.0
    ensures KeySet(Shares(costs, total)) == KeySet(costs)
  {
    var r := Shares(costs, total);
    forall k | k in KeySet(r) ensures k in KeySet(costs) {
      var i :| 0 <= i < |r| && r[i].0 == k;
      assert costs[i].0 == k;
    }
    forall k | k in KeySet(costs) ensures k in KeySet(r) {
      var i :| 0 <= i < |costs| && costs[i].0 == k;
      assert r[i].0 == k;
    }
  }

  /** The shares add up to the whole total's share: `sum  v/T*100 = (sum  v)/T*100`. */
  lemma {:induction false} SharesTotal(costs: Costs, total: real)
    requires total != 0.0
    ensures Total(Shares(costs, total)) == Total(costs) / total * 100.0
  {
    if |costs| > 0 {
      var r := Shares(costs, total);
      assert r[1..] == Shares(costs[1..], total);
      SharesTotal(costs[1..], total);
      assert Total(r) == r[0].1 + Total(costs[1..]) / total * 100.0;
      assert r[0].1 == costs[0].1 / total * 100.0;
      assert costs[0].1 / total * 100.0 + Total(costs[1..]) / total * 100.0
          == (costs[0].1 + Total(costs[1..])) / total * 100.0;
    }
  }
}
