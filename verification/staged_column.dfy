/** The Tier 2 staged counter-current stripper (tools/simulation_sizing.py).

    Liquid enters at stage 0 (bottom) and leaves at point N (top); clean air enters at the top and
    leaves at the bottom. Each of the N stages hands the liquid it receives and the gas it receives
    to the chemistry engine, moves the gas a Murphree fraction of the way to equilibrium, and
    recomputes the liquid from the stage mass balance. The profile is iterated with damping until
    the relative change falls below a tolerance. An outer bisection searches the stage count, and
    the stage count is turned into a packed height through the HETP.

    The chemistry engine (PHREEQC) is a parameter of type `Engine`: from the liquid concentration
    entering a stage, the gas charge entering it and the pH guess, it yields the equilibrated phase
    amounts. The strippable-fraction correlation is a parameter `alpha` from pH to a fraction.
 */
module StagedColumn {
  import opened Basics

  /** Gas constant in L*atm/(mol*K), used by the stages and the gas charge. */
  const GasConstantL: real := 0.08206
  /** Gas constant in m^3*atm/(mol*K), used by the mass-balance report only. */
  const GasConstantM3: real := 8.2057366e-5
  const MurphreeEfficiency: real := 0.85
  const MinGasVolumeL: real := 1.0e-6
  const TraceMoleFraction: real := 1.0e-12
  const RelativeErrorFloor: real := 1.0e-9
  const MassBalanceTolerance: real := 0.10
  const HetpSafetyFactor: real := 1.2
  const DefaultInletPh: real := 7.0
  const MetresPerDefaultStage: real := 0.5
  const MinDefaultStages: int := 10
  const SearchMinStages: int := 5
  const SearchMaxStages: int := 100

  function Kelvin(temperatureC: real): real
  {
    temperatureC + 273.15
  }

  function Last(s: seq<real>): real
    requires |s| > 0
  {
    s[|s| - 1]
  }

  /** What the Tier 2 simulation reads from the Tier 1 outcome (request, result and the
      resolved Henry constant and molecular weight). */
  datatype Tier1Summary = Tier1Summary(
    application: string,
    inletMgL: real,
    outletMgL: real,
    waterPh: Option<real>,
    temperatureC: real,
    henryConstant: real,
    molecularWeight: real,
    airWaterRatio: real,
    waterFlowM3h: real,
    airFlowM3h: real,
    towerHeightM: real,
    towerDiameterM: real,
    htuM: real)

  /** The Tier 1 outcome always carries a temperature above absolute zero and a positive molecular weight. */
  predicate Physical(t: Tier1Summary)
  {
    Kelvin(t.temperatureC) > 0.0 && t.molecularWeight > 0.0
  }

  // ---------------------------------------------------------------------------
  // Profiles and their seed
  // ---------------------------------------------------------------------------

  /** Liquid concentration (mg/L), gas mole fraction and pH at points 0..N. */
  datatype Profiles = Profiles(c: seq<real>, y: seq<real>, ph: seq<real>)

  predicate Shaped(p: Profiles, n: nat)
  {
    |p.c| == n + 1 && |p.y| == n + 1 && |p.ph| == n + 1
  }

  datatype SolveError =
    | ZeroStages          // `i / N_stages` with N_stages == 0
    | InvalidStageCount   // a negative stage count: numpy refuses the arrays
    | NoIterationsRun     // max_iterations < 1 leaves the final error unbound
    | NotConverged        // the RuntimeError after max_iterations sweeps

  /** `water_ph if water_ph else 7.0`: a missing or zero pH falls back to neutral. */
  function InletPh(waterPh: Option<real>): (ph: real)
    ensures waterPh.Some? && waterPh.value != 0.0 ==> ph == waterPh.value
    ensures waterPh.None? || waterPh.value == 0.0 ==> ph == DefaultInletPh
  {
    if waterPh.Some? && waterPh.value != 0.0 then waterPh.value else DefaultInletPh
  }

  /** The Henry constant scaled by the strippable fraction at the inlet pH (1 for pH-insensitive solutes). */
  function EffectiveHenry(t: Tier1Summary, alpha: real -> real): real
  {
    t.henryConstant * (if PhSensitive(t.application) then alpha(InletPh(t.waterPh)) else 1.0)
  }

  /** Henry-law gas mole fraction in equilibrium with a liquid concentration, floored at zero. */
  function HenryGasFraction(henryEff: real, cMgL: real, mw: real, temperatureC: real): (y: real)
    requires mw > 0.0
    ensures y >= 0.0
    ensures henryEff * cMgL * Kelvin(temperatureC) <= 0.0 ==> y == 0.0
  {
    var cMol := cMgL / (mw * 1000.0);
    assert henryEff * cMol * GasConstantL * Kelvin(temperatureC)
        == (henryEff * cMgL * Kelvin(temperatureC)) * (GasConstantL / (mw * 1000.0));
    Max(0.0, henryEff * cMol * GasConstantL * Kelvin(temperatureC))
  }

  /** Point i of a straight line from the inlet (point 0) to the outlet (point n). */
  function SeedConcentration(inlet: real, outlet: real, n: nat, i: nat): real
    requires n >= 1
  {
    inlet * (1.0 - (i as real) / (n as real)) + outlet * ((i as real) / (n as real))
  }

  lemma SeedStep(inlet: real, outlet: real, n: nat, i: nat)
    requires n >= 1
    ensures SeedConcentration(inlet, outlet, n, i + 1) - SeedConcentration(inlet, outlet, n, i)
         == (outlet - inlet) / (n as real)
  {
    var a := (i as real) / (n as real);
    var b := ((i + 1) as real) / (n as real);
    assert b - a == 1.0 / (n as real);
    calc {
      SeedConcentration(inlet, outlet, n, i + 1) - SeedConcentration(inlet, outlet, n, i);
      (inlet * (1.0 - b) + outlet * b) - (inlet * (1.0 - a) + outlet * a);
      (outlet - inlet) * (b - a);
      (outlet - inlet) * (1.0 / (n as real));
    }
  }

  /** The seeded profiles: liquid on a straight line from inlet to outlet target, gas in Henry-law
      equilibrium with it (clean at the top), pH uniform at the inlet pH. */
  function InitialProfiles(t: Tier1Summary, alpha: real -> real, n: int): (r: Result<Profiles, SolveError>)
    requires t.molecularWeight > 0.0
    ensures n == 0 <==> r == Err(ZeroStages)
    ensures n < 0 <==> r == Err(InvalidStageCount)
    ensures r.Ok? <==> n >= 1
    ensures r.Ok? ==> Shaped(r.value, n)
    ensures r.Ok? ==> r.value.c[0] == t.inletMgL && r.value.c[n] == t.outletMgL
    ensures r.Ok? ==> forall i :: 0 <= i < n ==>
              r.value.c[i + 1] - r.value.c[i] == (t.outletMgL - t.inletMgL) / (n as real)
    ensures r.Ok? ==> forall i :: 0 <= i < n ==>
              r.value.y[i] == HenryGasFraction(EffectiveHenry(t, alpha), r.value.c[i], t.molecularWeight, t.temperatureC)
    ensures r.Ok? ==> r.value.y[n] == 0.0 && forall i :: 0 <= i <= n ==> r.value.y[i] >= 0.0
    ensures r.Ok? ==> forall i :: 0 <= i <= n ==> r.value.ph[i] == InletPh(t.waterPh)
  {
    if n == 0 then Err(ZeroStages)
    else if n < 0 then Err(InvalidStageCount)
    else
      var hEff := EffectiveHenry(t, alpha);
      var c := seq(n + 1, i requires 0 <= i <= n => SeedConcentration(t.inletMgL, t.outletMgL, n, i));
      var y := seq(n + 1, i requires 0 <= i <= n =>
        if i == n then 0.0 else HenryGasFraction(hEff, c[i], t.molecularWeight, t.temperatureC));
      var ph := seq(n + 1, i requires 0 <= i <= n => InletPh(t.waterPh));
      assert forall i :: 0 <= i < n ==> c[i + 1] - c[i] == (t.outletMgL - t.inletMgL) / (n as real) by {
        forall i | 0 <= i < n ensures c[i + 1] - c[i] == (t.outletMgL - t.inletMgL) / (n as real) {
          SeedStep(t.inletMgL, t.outletMgL, n, i);
        }
      }
      Ok(Profiles(c, y, ph))
  }

  // ---------------------------------------------------------------------------
  // One stage
  // ---------------------------------------------------------------------------

  /** Gas entering a stage as handed to the engine: volume (L per L of water) and moles of
      nitrogen carrier and of contaminant. */
  datatype GasCharge = GasCharge(volumeL: real, carrierMol: real, contaminantMol: real)

  /** The gas charge for an incoming mole fraction: an ideal gas at 1 atm filling the A/W volume
      (at least 1e-6 L); below 1e-12 the contaminant is a trace of 1e-12 of the total. */
  function GasChargeFor(yIn: real, airWaterRatio: real, temperatureC: real): GasCharge
    requires Kelvin(temperatureC) > 0.0
  {
    var volume := Max(airWaterRatio, MinGasVolumeL);
    var total := volume / (GasConstantL * Kelvin(temperatureC));
    if yIn < TraceMoleFraction then
      GasCharge(volume, total, TraceMoleFraction * total)
    else
      GasCharge(volume, total - yIn * total, yIn * total)
  }

  /** The gas charge obeys the ideal gas law at 1 atm for its volume, holds the incoming mole
      fraction (or the trace floor), and is non-negative for a physical mole fraction. */
  lemma GasChargeIdealGas(yIn: real, airWaterRatio: real, temperatureC: real)
    requires Kelvin(temperatureC) > 0.0
    ensures var g := GasChargeFor(yIn, airWaterRatio, temperatureC);
            && g.volumeL == Max(airWaterRatio, MinGasVolumeL) && g.volumeL > 0.0
            && (yIn >= TraceMoleFraction ==>
                  (g.carrierMol + g.contaminantMol) * (GasConstantL * Kelvin(temperatureC)) == g.volumeL
                  && g.contaminantMol == yIn * (g.carrierMol + g.contaminantMol))
            && (yIn < TraceMoleFraction ==>
                  g.carrierMol * (GasConstantL * Kelvin(temperatureC)) == g.volumeL
                  && g.contaminantMol == TraceMoleFraction * g.carrierMol)
            && (yIn <= 1.0 ==> g.carrierMol >= 0.0 && g.contaminantMol > 0.0)
  {
    var volume := Max(airWaterRatio, MinGasVolumeL);
    var rt := GasConstantL * Kelvin(temperatureC);
    var total := volume / rt;
    assert total > 0.0 && total * rt == volume;
    if yIn >= TraceMoleFraction && yIn <= 1.0 {
      assert yIn * total <= total;
    }
  }

  /** What the engine reports after equilibrating a stage: dissolved contaminant (mol per L of
      water, 0 when the engine has none), total gas moles, contaminant moles in the gas, pH. */
  datatype EngineState = EngineState(liquidMol: real, gasTotalMol: real, gasContaminantMol: real, ph: real)

  type Engine = (real, GasCharge, real) -> EngineState

  /** Mole fraction of the gas leaving the engine: contaminant over total, or 0 without gas. */
  function OutletMoleFraction(contaminantMol: real, totalMol: real): (y: real)
    ensures totalMol > 0.0 ==> y * totalMol == contaminantMol
    ensures totalMol > 0.0 && 0.0 <= contaminantMol <= totalMol ==> 0.0 <= y <= 1.0
    ensures totalMol <= 0.0 ==> y == 0.0
  {
    if totalMol > 0.0 then contaminantMol / totalMol else 0.0
  }

  /** Stage equilibrium: liquid concentration (mg/L), gas mole fraction and pH. */
  datatype Equilibrium = Equilibrium(cMgL: real, y: real, ph: real)

  function Equilibrate(engine: Engine, mw: real, cIn: real, gas: GasCharge, phGuess: real): Equilibrium
  {
    var s := engine(cIn, gas, phGuess);
    Equilibrium(s.liquidMol * mw * 1000.0, OutletMoleFraction(s.gasContaminantMol, s.gasTotalMol), s.ph)
  }

  /** mg/L of liquid concentration carried off per unit of gas mole fraction at the column's
      gas-to-liquid ratio: A/W over the molar volume, times the molecular weight in mg. */
  function UptakeFactor(airWaterRatio: real, temperatureC: real, mw: real): real
    requires Kelvin(temperatureC) > 0.0
  {
    airWaterRatio * (1.0 / (GasConstantL * Kelvin(temperatureC))) * mw * 1000.0
  }

  datatype StageOut = StageOut(c: real, y: real, ph: real)

  /** One stage: the gas and the pH approach equilibrium by the Murphree efficiency; the liquid
      leaving is what entered minus what the gas picked up. The engine's own liquid concentration
      is blended by the source and then discarded, so it does not appear here. */
  function StageUpdate(cIn: real, yIn: real, phGuess: real, eq: Equilibrium,
                       airWaterRatio: real, temperatureC: real, mw: real): (s: StageOut)
    requires Kelvin(temperatureC) > 0.0
    ensures cIn - s.c == (s.y - yIn) * UptakeFactor(airWaterRatio, temperatureC, mw)
  {
    var yOut := yIn + MurphreeEfficiency * (eq.y - yIn);
    var phOut := phGuess + MurphreeEfficiency * (eq.ph - phGuess);
    StageOut(cIn - (yOut - yIn) * UptakeFactor(airWaterRatio, temperatureC, mw), yOut, phOut)
  }

  /** The stage gas closes 85 % of the gap to equilibrium and so lies between the incoming and
      the equilibrium mole fraction; the pH moves the same fraction toward the engine's. */
  lemma StageApproachesEquilibrium(cIn: real, yIn: real, phGuess: real, eq: Equilibrium,
                                   airWaterRatio: real, temperatureC: real, mw: real)
    requires Kelvin(temperatureC) > 0.0
    ensures var s := StageUpdate(cIn, yIn, phGuess, eq, airWaterRatio, temperatureC, mw);
            && (eq.y != yIn ==> (s.y - yIn) / (eq.y - yIn) == MurphreeEfficiency)
            && (eq.y == yIn ==> s.y == yIn)
            && Min(yIn, eq.y) <= s.y <= Max(yIn, eq.y)
            && (eq.ph != phGuess ==> (s.ph - phGuess) / (eq.ph - phGuess) == MurphreeEfficiency)
  {
    if eq.y != yIn { QuotientOfScaled(MurphreeEfficiency, eq.y - yIn); }
    if eq.ph != phGuess { QuotientOfScaled(MurphreeEfficiency, eq.ph - phGuess); }
  }

  lemma QuotientOfScaled(e: real, x: real)
    requires x != 0.0
    ensures (e * x) / x == e
  {
  }

  /** The engine's equilibrium liquid concentration never reaches the stored stage result. */
  lemma StageIgnoresEngineLiquid(cIn: real, yIn: real, phGuess: real, c1: real, c2: real, yEq: real, phEq: real,
                                 airWaterRatio: real, temperatureC: real, mw: real)
    requires Kelvin(temperatureC) > 0.0
    ensures StageUpdate(cIn, yIn, phGuess, Equilibrium(c1, yEq, phEq), airWaterRatio, temperatureC, mw)
         == StageUpdate(cIn, yIn, phGuess, Equilibrium(c2, yEq, phEq), airWaterRatio, temperatureC, mw)
  {
  }

  // ---------------------------------------------------------------------------
  // One sweep over the column
  // ---------------------------------------------------------------------------

  /** What the top point N holds after a sweep: the source copies the seeded outlet target
      (`KeepSeed`); `TakeLastStage` carries the liquid leaving stage N-1 (see the findings). */
  datatype TopRule = KeepSeed | TakeLastStage

  /** Everything a sweep needs besides the profiles: the feed, the operating point and N. */
  datatype Column = Column(feedMgL: real, airWaterRatio: real, temperatureC: real,
                           molecularWeight: real, stages: nat, rule: TopRule)

  predicate Runnable(col: Column)
  {
    col.stages >= 1 && Kelvin(col.temperatureC) > 0.0
  }

  /** Liquid entering stage i: the feed at the bottom, else the previous iterate's stage below. */
  function LiquidIn(col: Column, p: Profiles, i: nat): real
    requires Shaped(p, col.stages) && i < col.stages
  {
    if i == 0 then col.feedMgL else p.c[i - 1]
  }

  /** Gas entering stage i: clean air at the top stage, else the previous iterate's stage above. */
  function GasIn(col: Column, p: Profiles, i: nat): real
    requires Shaped(p, col.stages) && i < col.stages
  {
    if i == col.stages - 1 then 0.0 else p.y[i + 1]
  }

  function StageAt(col: Column, engine: Engine, p: Profiles, i: nat): StageOut
    requires Runnable(col) && Shaped(p, col.stages) && i < col.stages
  {
    var cIn := LiquidIn(col, p, i);
    var yIn := GasIn(col, p, i);
    var eq := Equilibrate(engine, col.molecularWeight, cIn, GasChargeFor(yIn, col.airWaterRatio, col.temperatureC), p.ph[i]);
    StageUpdate(cIn, yIn, p.ph[i], eq, col.airWaterRatio, col.temperatureC, col.molecularWeight)
  }

  function TopLiquid(col: Column, engine: Engine, p: Profiles): real
    requires Runnable(col) && Shaped(p, col.stages)
  {
    match col.rule
    case KeepSeed => p.c[col.stages]
    case TakeLastStage => StageAt(col, engine, p, col.stages - 1).c
  }

  /** The stage results of stages i .. N-1 of one sweep, bottom first. */
  function StagesFrom(col: Column, engine: Engine, p: Profiles, i: nat): (r: seq<StageOut>)
    requires Runnable(col) && Shaped(p, col.stages) && i <= col.stages
    ensures |r| == col.stages - i
    decreases col.stages - i
  {
    if i == col.stages then [] else [StageAt(col, engine, p, i)] + StagesFrom(col, engine, p, i + 1)
  }

  lemma {:induction false} StagesFromAt(col: Column, engine: Engine, p: Profiles, i: nat, j: nat)
    requires Runnable(col) && Shaped(p, col.stages) && i <= j < col.stages
    ensures StagesFrom(col, engine, p, i)[j - i] == StageAt(col, engine, p, j)
    decreases j - i
  {
    if i < j {
      StagesFromAt(col, engine, p, i + 1, j);
    }
  }

  /** Reference definition of one sweep: every stage reads its neighbours from the previous
      iterate; the top point gets clean air, its own pH, and the liquid the top rule names. */
  function SweepSpec(col: Column, engine: Engine, p: Profiles): (q: Profiles)
    requires Runnable(col) && Shaped(p, col.stages)
    ensures Shaped(q, col.stages)
    ensures forall i {:trigger StageAt(col, engine, p, i)} :: 0 <= i < col.stages ==>
              StageAt(col, engine, p, i) == StageOut(q.c[i], q.y[i], q.ph[i])
    ensures q.c[col.stages] == TopLiquid(col, engine, p)
    ensures q.y[col.stages] == 0.0 && q.ph[col.stages] == p.ph[col.stages]
  {
    var n := col.stages;
    var st := StagesFrom(col, engine, p, 0);
    var q := Profiles(
      seq(n + 1, i requires 0 <= i <= n => if i < n then st[i].c else TopLiquid(col, engine, p)),
      seq(n + 1, i requires 0 <= i <= n => if i < n then st[i].y else 0.0),
      seq(n + 1, i requires 0 <= i <= n => if i < n then st[i].ph else p.ph[n]));
    assert forall i {:trigger StageAt(col, engine, p, i)} :: 0 <= i < n ==>
              StageAt(col, engine, p, i) == StageOut(q.c[i], q.y[i], q.ph[i]) by {
      forall i | 0 <= i < n ensures StageAt(col, engine, p, i) == StageOut(q.c[i], q.y[i], q.ph[i]) {
        StagesFromAt(col, engine, p, 0, i);
      }
    }
    q
  }

  /** Every stage of a sweep conserves the contaminant: what the liquid loses, the gas gains. */
  lemma SweepStageBalance(col: Column, engine: Engine, p: Profiles)
    requires Runnable(col) && Shaped(p, col.stages)
    ensures var q := SweepSpec(col, engine, p);
            forall i :: 0 <= i < col.stages ==>
              LiquidIn(col, p, i) - q.c[i]
              == (q.y[i] - GasIn(col, p, i)) * UptakeFactor(col.airWaterRatio, col.temperatureC, col.molecularWeight)
  {
    var q := SweepSpec(col, engine, p);
    forall i | 0 <= i < col.stages
      ensures LiquidIn(col, p, i) - q.c[i]
              == (q.y[i] - GasIn(col, p, i)) * UptakeFactor(col.airWaterRatio, col.temperatureC, col.molecularWeight)
    {
      assert StageAt(col, engine, p, i) == StageOut(q.c[i], q.y[i], q.ph[i]);
    }
  }

  /** The stage march from bottom to top, collecting the undamped new profiles. */
  method Sweep(col: Column, engine: Engine, p: Profiles) returns (q: Profiles)
    requires Runnable(col) && Shaped(p, col.stages)
    ensures q == SweepSpec(col, engine, p)
    ensures forall i :: 0 <= i < col.stages ==>
              LiquidIn(col, p, i) - q.c[i]
              == (q.y[i] - GasIn(col, p, i)) * UptakeFactor(col.airWaterRatio, col.temperatureC, col.molecularWeight)
    ensures q.y[col.stages] == 0.0 && q.ph[col.stages] == p.ph[col.stages]
    ensures col.rule == KeepSeed ==> q.c[col.stages] == p.c[col.stages]
    ensures col.rule == TakeLastStage ==> q.c[col.stages] == q.c[col.stages - 1]
  {
    var n := col.stages;
    ghost var spec := SweepSpec(col, engine, p);
    var c: seq<real> := [];
    var y: seq<real> := [];
    var ph: seq<real> := [];
    var i := 0;
    while i <= n
      invariant 0 <= i <= n + 1
      invariant c == spec.c[..i] && y == spec.y[..i] && ph == spec.ph[..i]
    {
      if i == n {
        var top := if col.rule == KeepSeed then p.c[n] else c[n - 1];
        assert top == TopLiquid(col, engine, p);
        c, y, ph := c + [top], y + [0.0], ph + [p.ph[n]];
      } else {
        var s := StageAt(col, engine, p, i);
        c, y, ph := c + [s.c], y + [s.y], ph + [s.ph];
      }
      assert spec.c[..i + 1] == spec.c[..i] + [spec.c[i]];
      assert spec.y[..i + 1] == spec.y[..i] + [spec.y[i]];
      assert spec.ph[..i + 1] == spec.ph[..i] + [spec.ph[i]];
      i := i + 1;
    }
    assert c == spec.c && y == spec.y && ph == spec.ph;
    q := Profiles(c, y, ph);
    SweepStageBalance(col, engine, p);
  }

  // ---------------------------------------------------------------------------
  // Damping, convergence error, iteration
  // ---------------------------------------------------------------------------

  /** 0.3 for more than 50 stages, else 0.5. */
  function DampingFactor(n: nat): (d: real)
    ensures 0.0 < d < 1.0
    ensures n > 50 ==> d == 0.3
    ensures n <= 50 ==> d == 0.5
  {
    if n > 50 then 0.3 else 0.5
  }

  /** `d * swept + (1 - d) * prev`, element by element. */
  function Damp(d: real, swept: seq<real>, prev: seq<real>): (r: seq<real>)
    requires |swept| == |prev|
    ensures |r| == |prev|
    ensures forall i :: 0 <= i < |r| ==> r[i] - prev[i] == d * (swept[i] - prev[i])
  {
    seq(|prev|, i requires 0 <= i < |prev| => d * swept[i] + (1.0 - d) * prev[i])
  }

  /** A damped update leaves a profile unchanged exactly when the sweep reproduced it. */
  lemma DampFixedPoint(d: real, swept: seq<real>, prev: seq<real>)
    requires |swept| == |prev| && d != 0.0
    ensures Damp(d, swept, prev) == prev <==> swept == prev
  {
    var r := Damp(d, swept, prev);
    if r == prev {
      forall i | 0 <= i < |prev| ensures swept[i] == prev[i] {
        assert d * (swept[i] - prev[i]) == 0.0;
      }
    }
    if swept == prev {
      forall i | 0 <= i < |prev| ensures r[i] == prev[i] {
        assert d * (swept[i] - prev[i]) == 0.0;
      }
    }
  }

  /** One outer iteration: a sweep, then damping against the previous iterate. */
  function Step(col: Column, engine: Engine, p: Profiles): (q: Profiles)
    requires Runnable(col) && Shaped(p, col.stages)
    ensures Shaped(q, col.stages)
  {
    var s := SweepSpec(col, engine, p);
    var d := DampingFactor(col.stages);
    Profiles(Damp(d, s.c, p.c), Damp(d, s.y, p.y), Damp(d, s.ph, p.ph))
  }

  /** Damping leaves alone every point the sweep did not move. */
  lemma DampKeeps(d: real, swept: seq<real>, prev: seq<real>, i: nat)
    requires |swept| == |prev| && i < |prev| && swept[i] == prev[i]
    ensures Damp(d, swept, prev)[i] == prev[i]
  {
    assert Damp(d, swept, prev)[i] - prev[i] == d * (swept[i] - prev[i]);
  }

  /** The top point keeps clean air and its pH through an iteration, and under the source's
      top rule it keeps its liquid concentration too. */
  lemma StepKeepsTop(col: Column, engine: Engine, p: Profiles)
    requires Runnable(col) && Shaped(p, col.stages)
    ensures p.y[col.stages] == 0.0 ==> TopKept(col, p, Step(col, engine, p))
  {
    var s := SweepSpec(col, engine, p);
    var d := DampingFactor(col.stages);
    if p.y[col.stages] == 0.0 {
      DampKeeps(d, s.y, p.y, col.stages);
      DampKeeps(d, s.ph, p.ph, col.stages);
      if col.rule == KeepSeed {
        DampKeeps(d, s.c, p.c, col.stages);
      }
    }
  }

  /** The top point holds clean air, the pH it started from, and under the source's top rule the
      liquid concentration it started from. */
  predicate TopKept(col: Column, p0: Profiles, p: Profiles)
    requires Shaped(p0, col.stages) && Shaped(p, col.stages)
  {
    p.y[col.stages] == 0.0 && p.ph[col.stages] == p0.ph[col.stages]
    && (col.rule == KeepSeed ==> p.c[col.stages] == p0.c[col.stages])
  }

  lemma TopKeptTrans(col: Column, p0: Profiles, p1: Profiles, p2: Profiles)
    requires Shaped(p0, col.stages) && Shaped(p1, col.stages) && Shaped(p2, col.stages)
    requires TopKept(col, p0, p1) && TopKept(col, p1, p2)
    ensures TopKept(col, p0, p2)
  {}

  /** A profile is a fixed point of the damped iteration exactly when it is a fixed point of the sweep. */
  lemma StepFixedPoint(col: Column, engine: Engine, p: Profiles)
    requires Runnable(col) && Shaped(p, col.stages)
    ensures Step(col, engine, p) == p <==> SweepSpec(col, engine, p) == p
  {
    var s := SweepSpec(col, engine, p);
    var d := DampingFactor(col.stages);
    DampFixedPoint(d, s.c, p.c);
    DampFixedPoint(d, s.y, p.y);
    DampFixedPoint(d, s.ph, p.ph);
  }

  /** numpy's `|next - prev| / (prev + 1e-9)`, element by element. */
  function RelativeChanges(next: seq<real>, prev: seq<real>): (r: seq<Ext>)
    requires |next| == |prev|
    ensures |r| == |prev|
  {
    seq(|prev|, i requires 0 <= i < |prev| => DivideMagnitude(Abs(next[i] - prev[i]), prev[i] + RelativeErrorFloor))
  }

  /** `max(np.max(error_C), np.max(error_y))` with Python's builtin `max`. */
  function IterationError(prev: Profiles, next: Profiles): Ext
    requires |prev.c| == |next.c| > 0 && |prev.y| == |next.y| > 0
  {
    PyMax(ArrayMax(RelativeChanges(next.c, prev.c)), ArrayMax(RelativeChanges(next.y, prev.y)))
  }

  /** A value moved by less than `tol` relative to its previous value plus 1e-9. */
  predicate ChangedLessThan(next: real, prev: real, tol: real)
  {
    Abs(next - prev) < tol * (prev + RelativeErrorFloor)
  }

  /** A finite array error below the tolerance bounds every element's change. */
  lemma SmallRelativeChanges(next: seq<real>, prev: seq<real>, tol: real)
    requires |next| == |prev| > 0
    requires LessThan(ArrayMax(RelativeChanges(next, prev)), tol)
    ensures forall i :: 0 <= i < |prev| && prev[i] + RelativeErrorFloor > 0.0 ==> ChangedLessThan(next[i], prev[i], tol)
  {
    var rel := RelativeChanges(next, prev);
    var m := ArrayMax(rel);
    forall i | 0 <= i < |prev| && prev[i] + RelativeErrorFloor > 0.0
      ensures ChangedLessThan(next[i], prev[i], tol)
    {
      assert rel[i] == DivideMagnitude(Abs(next[i] - prev[i]), prev[i] + RelativeErrorFloor);
      ElementBelow(next[i], prev[i], m.v, tol);
    }
  }

  lemma ElementBelow(next: real, prev: real, bound: real, tol: real)
    requires prev + RelativeErrorFloor > 0.0
    requires Abs(next - prev) / (prev + RelativeErrorFloor) <= bound < tol
    ensures ChangedLessThan(next, prev, tol)
  {
    var a := Abs(next - prev);
    var den := prev + RelativeErrorFloor;
    assert a == (a / den) * den;
    assert (a / den) * den < tol * den;
  }

  /** What passing the convergence test guarantees: every liquid value moved by less than the
      tolerance relative to its previous value (plus 1e-9), and so did every gas value unless
      the gas errors contained a NaN, which Python's `max` drops in second position. */
  lemma ConvergedMeansSmallChanges(prev: Profiles, next: Profiles, tol: real)
    requires |prev.c| == |next.c| > 0 && |prev.y| == |next.y| > 0
    requires LessThan(IterationError(prev, next), tol)
    ensures forall i :: 0 <= i < |prev.c| && prev.c[i] + RelativeErrorFloor > 0.0 ==>
              ChangedLessThan(next.c[i], prev.c[i], tol)
    ensures !ArrayMax(RelativeChanges(next.y, prev.y)).NaN? ==>
              forall i :: 0 <= i < |prev.y| && prev.y[i] + RelativeErrorFloor > 0.0 ==>
                ChangedLessThan(next.y[i], prev.y[i], tol)
  {
    var ec := ArrayMax(RelativeChanges(next.c, prev.c));
    var ey := ArrayMax(RelativeChanges(next.y, prev.y));
    assert LessThan(ec, tol);
    SmallRelativeChanges(next.c, prev.c, tol);
    if !ey.NaN? {
      assert LessThan(ey, tol);
      SmallRelativeChanges(next.y, prev.y, tol);
    }
  }

  datatype Solution = Solution(profiles: Profiles, iterations: nat, converged: bool)

  /** Iterations k, k+1, .., maxIter from profile p: the first one whose error passes wins. */
  function Iterate(col: Column, engine: Engine, p: Profiles, tol: real, k: nat, maxIter: int): (r: Result<Solution, SolveError>)
    requires Runnable(col) && Shaped(p, col.stages) && k >= 1
    ensures r.Ok? ==> r.value.converged && k <= r.value.iterations <= maxIter && Shaped(r.value.profiles, col.stages)
    ensures r.Ok? && p.y[col.stages] == 0.0 ==> TopKept(col, p, r.value.profiles)
    ensures r.Err? ==> r.error == NotConverged
    ensures k > maxIter ==> r == Err(NotConverged)
    decreases if k <= maxIter then maxIter - k + 1 else 0
  {
    if k > maxIter then Err(NotConverged)
    else
      var q := Step(col, engine, p);
      StepKeepsTop(col, engine, p);
      if LessThan(IterationError(p, q), tol) then Ok(Solution(q, k, true))
      else
        var r := Iterate(col, engine, q, tol, k + 1, maxIter);
        if r.Ok? && p.y[col.stages] == 0.0 then TopKeptTrans(col, p, q, r.value.profiles); r else r
  }

  /** One iteration of the loop: either its error passes, or the remaining iterations decide. */
  lemma IterateUnfolds(col: Column, engine: Engine, p: Profiles, tol: real, k: nat, maxIter: int)
    requires Runnable(col) && Shaped(p, col.stages) && 1 <= k <= maxIter
    ensures var q := Step(col, engine, p);
            && Iterate(col, engine, p, tol, k, maxIter)
               == (if LessThan(IterationError(p, q), tol) then Ok(Solution(q, k, true))
                   else Iterate(col, engine, q, tol, k + 1, maxIter))
            && (p.y[col.stages] == 0.0 ==> TopKept(col, p, q))
  {
    StepKeepsTop(col, engine, p);
  }

  /** Tolerance, iteration cap and top rule of one inner solve. */
  datatype SolverSettings = SolverSettings(tolerance: real, maxIterations: int, rule: TopRule)

  function ColumnFor(t: Tier1Summary, n: nat, rule: TopRule): Column
  {
    Column(t.inletMgL, t.airWaterRatio, t.temperatureC, t.molecularWeight, n, rule)
  }

  /** Reference definition of the inner solve: seed, then iterate from 1 to max_iterations. */
  function SolveSpec(t: Tier1Summary, alpha: real -> real, engine: Engine, n: int, settings: SolverSettings): (r: Result<Solution, SolveError>)
    requires Physical(t)
    ensures n == 0 ==> r == Err(ZeroStages)
    ensures n < 0 ==> r == Err(InvalidStageCount)
    ensures n >= 1 && settings.maxIterations < 1 ==> r == Err(NoIterationsRun)
    ensures r.Ok? ==> n >= 1 && Shaped(r.value.profiles, n) && r.value.converged
                      && 1 <= r.value.iterations <= settings.maxIterations
  {
    var seed :- InitialProfiles(t, alpha, n);
    if settings.maxIterations < 1 then Err(NoIterationsRun)
    else Iterate(ColumnFor(t, n, settings.rule), engine, seed, settings.tolerance, 1, settings.maxIterations)
  }

  /** The inner solve as the source runs it: seed, then sweep and damp until the error passes. */
  method Solve(t: Tier1Summary, alpha: real -> real, engine: Engine, n: int, settings: SolverSettings)
    returns (r: Result<Solution, SolveError>)
    requires Physical(t)
    ensures r == SolveSpec(t, alpha, engine, n, settings)
    ensures r.Ok? ==> r.value.converged && 1 <= r.value.iterations <= settings.maxIterations
    ensures r.Ok? ==> Shaped(r.value.profiles, n) && r.value.profiles.y[n] == 0.0
    ensures r.Ok? && settings.rule == KeepSeed ==> r.value.profiles.c[n] == t.outletMgL
  {
    var seeded := InitialProfiles(t, alpha, n);
    if seeded.Err? {
      return Err(seeded.error);
    }
    if settings.maxIterations < 1 {
      return Err(NoIterationsRun);
    }
    var col := ColumnFor(t, n, settings.rule);
    var p := seeded.value;
    var k: nat := 1;
    while k <= settings.maxIterations
      invariant k >= 1 && Shaped(p, n)
      invariant Iterate(col, engine, p, settings.tolerance, k, settings.maxIterations) == SolveSpec(t, alpha, engine, n, settings)
      invariant p.y[n] == 0.0
      invariant settings.rule == KeepSeed ==> p.c[n] == t.outletMgL
      decreases settings.maxIterations - k + 1
    {
      var s := Sweep(col, engine, p);
      var d := DampingFactor(n);
      var q := Profiles(Damp(d, s.c, p.c), Damp(d, s.y, p.y), Damp(d, s.ph, p.ph));
      assert q == Step(col, engine, p);
      IterateUnfolds(col, engine, p, settings.tolerance, k, settings.maxIterations);
      if LessThan(IterationError(p, q), settings.tolerance) {
        return Ok(Solution(q, k, true));
      }
      p, k := q, k + 1;
    }
    return Err(NotConverged);
  }

  // ---------------------------------------------------------------------------
  // The top point
  // ---------------------------------------------------------------------------

  /** Under the source's top rule, every converged solve reports the outlet target itself as
      the liquid leaving the column, whatever the engine does. */
  lemma SolvedOutletIsTarget(t: Tier1Summary, alpha: real -> real, engine: Engine, n: int, settings: SolverSettings)
    requires Physical(t) && settings.rule == KeepSeed
    ensures var r := SolveSpec(t, alpha, engine, n, settings);
            r.Ok? ==> Last(r.value.profiles.c) == t.outletMgL
  {
    var r := SolveSpec(t, alpha, engine, n, settings);
    if r.Ok? {
    }
  }

  /** Stage i moves (y[i] - y[i+1]) x k of concentration out of the liquid it receives (the
      feed at the bottom, else the stage below). */
  predicate StageBalanced(feed: real, c: seq<real>, y: seq<real>, k: real, i: nat)
    requires i < |c| && i + 1 < |y|
  {
    (if i == 0 then feed else c[i - 1]) - c[i] == (y[i] - y[i + 1]) * k
  }

  /** Summing per-stage balances: the liquid lost up to stage j is what the gas gained from
      point j + 1 down to point 0. */
  lemma {:induction false} Telescoping(feed: real, c: seq<real>, y: seq<real>, k: real, n: nat, j: nat)
    requires j < n <= |c| && n < |y|
    requires forall i :: 0 <= i < n ==> StageBalanced(feed, c, y, k, i)
    ensures feed - c[j] == (y[0] - y[j + 1]) * k
  {
    assert StageBalanced(feed, c, y, k, j);
    if j > 0 {
      Telescoping(feed, c, y, k, n, j - 1);
      assert (y[0] - y[j]) * k + (y[j] - y[j + 1]) * k == (y[0] - y[j + 1]) * k;
    }
  }

  /** With the top point carrying the liquid leaving stage N-1, a converged fixed point
      conserves the contaminant over the whole column: feed minus outlet is what the gas
      carries away between its inlet (top) and outlet (bottom). */
  lemma FixedPointColumnBalance(col: Column, engine: Engine, p: Profiles)
    requires Runnable(col) && col.rule == TakeLastStage && Shaped(p, col.stages)
    requires Step(col, engine, p) == p
    ensures col.feedMgL - Last(p.c)
         == (p.y[0] - Last(p.y)) * UptakeFactor(col.airWaterRatio, col.temperatureC, col.molecularWeight)
  {
    StepFixedPoint(col, engine, p);
    SweepFixedPointBalance(col, engine, p);
  }

  lemma SweepFixedPointBalance(col: Column, engine: Engine, p: Profiles)
    requires Runnable(col) && col.rule == TakeLastStage && Shaped(p, col.stages)
    requires SweepSpec(col, engine, p) == p
    ensures col.feedMgL - p.c[col.stages]
         == (p.y[0] - p.y[col.stages]) * UptakeFactor(col.airWaterRatio, col.temperatureC, col.molecularWeight)
  {
    var k := UptakeFactor(col.airWaterRatio, col.temperatureC, col.molecularWeight);
    FixedPointStages(col, engine, p);
    Telescoping(col.feedMgL, p.c, p.y, k, col.stages, col.stages - 1);
    FixedPointTop(col, engine, p);
  }

  lemma FixedPointStages(col: Column, engine: Engine, p: Profiles)
    requires Runnable(col) && Shaped(p, col.stages)
    requires SweepSpec(col, engine, p) == p
    ensures forall i :: 0 <= i < col.stages ==>
              StageBalanced(col.feedMgL, p.c, p.y, UptakeFactor(col.airWaterRatio, col.temperatureC, col.molecularWeight), i)
  {
    forall i | 0 <= i < col.stages
      ensures StageBalanced(col.feedMgL, p.c, p.y, UptakeFactor(col.airWaterRatio, col.temperatureC, col.molecularWeight), i)
    {
      FixedPointStage(col, engine, p, i);
    }
  }

  lemma FixedPointStage(col: Column, engine: Engine, p: Profiles, i: nat)
    requires Runnable(col) && Shaped(p, col.stages) && i < col.stages
    requires SweepSpec(col, engine, p) == p
    ensures LiquidIn(col, p, i) - p.c[i]
         == (p.y[i] - GasIn(col, p, i)) * UptakeFactor(col.airWaterRatio, col.temperatureC, col.molecularWeight)
  {
    var s := StageAt(col, engine, p, i);
    assert LiquidIn(col, p, i) - s.c
         == (s.y - GasIn(col, p, i)) * UptakeFactor(col.airWaterRatio, col.temperatureC, col.molecularWeight);
    assert s == StageOut(p.c[i], p.y[i], p.ph[i]);
  }

  lemma FixedPointTop(col: Column, engine: Engine, p: Profiles)
    requires Runnable(col) && Shaped(p, col.stages) && col.rule == TakeLastStage
    requires SweepSpec(col, engine, p) == p
    ensures p.c[col.stages] == p.c[col.stages - 1] && p.y[col.stages] == 0.0
  {
    assert StageAt(col, engine, p, col.stages - 1) == StageOut(p.c[col.stages - 1], p.y[col.stages - 1], p.ph[col.stages - 1]);
  }

  // ---------------------------------------------------------------------------
  // Mass-balance report
  // ---------------------------------------------------------------------------

  datatype MassBalanceReport = MassBalanceReport(
    massInMgH: real, massOutWaterMgH: real, massStrippedMgH: real, errorFraction: Ext, passed: bool)

  /** Contaminant in with the feed against contaminant out with the top liquid plus what the
      air carries between its outlet (point 0) and inlet (point N); passes below 10 %. It
      reports and never raises. */
  function MassBalanceCheck(t: Tier1Summary, c: seq<real>, y: seq<real>): (m: MassBalanceReport)
    requires |c| > 0 && |y| > 0 && Kelvin(t.temperatureC) > 0.0
    ensures m.massInMgH == 1000.0 * t.waterFlowM3h * t.inletMgL
    ensures m.massOutWaterMgH == 1000.0 * t.waterFlowM3h * Last(c)
    ensures m.massStrippedMgH
         == (y[0] - Last(y)) * (t.airFlowM3h / (GasConstantM3 * Kelvin(t.temperatureC))) * t.molecularWeight * 1000.0
    ensures m.errorFraction == DivideMagnitude(Abs(m.massOutWaterMgH + m.massStrippedMgH - m.massInMgH), m.massInMgH)
    ensures m.passed <==> LessThan(m.errorFraction, MassBalanceTolerance)
    ensures m.massInMgH > 0.0 ==>
              (m.passed <==> Abs(m.massOutWaterMgH + m.massStrippedMgH - m.massInMgH) < MassBalanceTolerance * m.massInMgH)
    ensures m.massInMgH == 0.0 ==> !m.passed
  {
    var waterLh := t.waterFlowM3h * 1000.0;
    var massIn := waterLh * t.inletMgL;
    var massOutWater := waterLh * Last(c);
    var totalMolH := t.airFlowM3h / (GasConstantM3 * Kelvin(t.temperatureC));
    var stripped := (y[0] - y[|y| - 1]) * totalMolH * t.molecularWeight * 1000.0;
    var gap := Abs(massOutWater + stripped - massIn);
    var err := DivideMagnitude(gap, massIn);
    assert massIn > 0.0 ==> (LessThan(err, MassBalanceTolerance) <==> gap < MassBalanceTolerance * massIn) by {
      if massIn > 0.0 { QuotientBelow(gap, massIn, MassBalanceTolerance); }
    }
    MassBalanceReport(massIn, massOutWater, stripped, err, LessThan(err, MassBalanceTolerance))
  }

  lemma QuotientBelow(a: real, b: real, tol: real)
    requires b > 0.0
    ensures a / b < tol <==> a < tol * b
  {
    assert a == (a / b) * b;
  }

  /** The intended closure: a profile of the column built from the Tier 1 summary whose liquid
      loss equals the stage model's gas pickup (what `FixedPointColumnBalance` proves of every
      fixed point under the corrected top rule) and whose outlet lies between 0 and the feed
      passes the report. The only gap left is the two gas constants (0.08206 against
      1000 x 8.2057366e-5), about 3.2e-5 of the feed. */
  lemma BalancedProfilePasses(t: Tier1Summary, col: Column, c: seq<real>, y: seq<real>)
    requires Physical(t) && |c| > 0 && |y| > 0 && col == ColumnFor(t, col.stages, TakeLastStage)
    requires t.waterFlowM3h > 0.0 && t.inletMgL > 0.0 && t.airFlowM3h == t.waterFlowM3h * t.airWaterRatio
    requires col.feedMgL - Last(c) == (y[0] - Last(y)) * UptakeFactor(col.airWaterRatio, col.temperatureC, col.molecularWeight)
    requires 0.0 <= Last(c) <= t.inletMgL
    ensures MassBalanceCheck(t, c, y).passed
  {
    var tk := Kelvin(t.temperatureC);
    var mw := t.molecularWeight;
    var dy := y[0] - Last(y);
    var removed := t.inletMgL - Last(c);
    assert removed == dy * UptakeFactor(t.airWaterRatio, t.temperatureC, mw);
    var w := 1000.0 * t.waterFlowM3h;
    var m := MassBalanceCheck(t, c, y);
    var rho := GasConstantL / (1000.0 * GasConstantM3);
    StrippedIsScaledRemoval(t, c, y);
    assert m.massStrippedMgH == rho * w * removed;
    WithinTolerance(w, removed, t.inletMgL, Last(c), rho);
  }

  lemma WithinTolerance(w: real, removed: real, inlet: real, outlet: real, rho: real)
    requires w > 0.0 && inlet > 0.0 && 0.0 <= outlet <= inlet && removed == inlet - outlet
    requires rho == GasConstantL / (1000.0 * GasConstantM3)
    ensures Abs(w * outlet + rho * w * removed - w * inlet) < MassBalanceTolerance * (w * inlet)
  {
    assert w * outlet + rho * w * removed - w * inlet == (rho - 1.0) * (w * removed);
    assert 0.0 < rho - 1.0 < MassBalanceTolerance;
    assert 0.0 <= w * removed <= w * inlet;
  }

  /** With the Tier 1 air flow equal to water flow times the air-to-water ratio, the report's
      stripped mass is the stage model's removal, (y[0] - y[N]) times the uptake factor, carried
      by the water flow and scaled by the ratio of the two gas constants. */
  lemma StrippedIsScaledRemoval(t: Tier1Summary, c: seq<real>, y: seq<real>)
    requires |c| > 0 && |y| > 0 && Kelvin(t.temperatureC) > 0.0
    requires t.airFlowM3h == t.waterFlowM3h * t.airWaterRatio
    ensures MassBalanceCheck(t, c, y).massStrippedMgH
         == (GasConstantL / (1000.0 * GasConstantM3)) * (1000.0 * t.waterFlowM3h)
            * ((y[0] - Last(y)) * UptakeFactor(t.airWaterRatio, t.temperatureC, t.molecularWeight))
  {
    var tk := Kelvin(t.temperatureC);
    var dy := y[0] - Last(y);
    var mw := t.molecularWeight;
    var a := t.waterFlowM3h * t.airWaterRatio * dy * mw;
    assert MassBalanceCheck(t, c, y).massStrippedMgH == dy * ((t.waterFlowM3h * t.airWaterRatio) / (GasConstantM3 * tk)) * mw * 1000.0;
    assert dy * ((t.waterFlowM3h * t.airWaterRatio) / (GasConstantM3 * tk)) * mw * 1000.0 == a * 1000.0 / (GasConstantM3 * tk);
    assert (GasConstantL / (1000.0 * GasConstantM3)) * (1000.0 * t.waterFlowM3h)
            * (dy * (t.airWaterRatio * (1.0 / (GasConstantL * tk)) * mw * 1000.0))
        == a * 1000.0 / (GasConstantM3 * tk);
  }

  // ---------------------------------------------------------------------------
  // Stage-count search
  // ---------------------------------------------------------------------------

  /** The search objective: outlet of the converged profile at N stages minus the target. */
  function OutletGap(t: Tier1Summary, alpha: real -> real, engine: Engine, settings: SolverSettings, target: real): (f: int -> Result<real, SolveError>)
    requires Physical(t)
    ensures forall n :: f(n).Ok? <==> SolveSpec(t, alpha, engine, n, settings).Ok?
    ensures forall n :: f(n).Ok? ==> f(n).value + target == Last(SolveSpec(t, alpha, engine, n, settings).value.profiles.c)
  {
    n => match SolveSpec(t, alpha, engine, n, settings)
         case Ok(s) => Ok(Last(s.profiles.c) - target)
         case Err(e) => Err(e)
  }

  datatype SearchError = SolveFailed(cause: SolveError) | StageLimitTooLow

  /** The bisection loop: halves [lo, hi] toward the smallest count whose objective is not
      positive, returning the upper end. */
  function Bisect(f: int -> Result<real, SolveError>, lo: int, hi: int): (r: Result<int, SolveError>)
    ensures r.Ok? && hi - lo <= 1 ==> r.value == hi
    ensures r.Ok? && lo < hi ==> lo < r.value <= hi
    ensures r.Ok? ==> r.value == hi || (f(r.value).Ok? && f(r.value).value <= 0.0)
    ensures r.Ok? && lo < hi ==> r.value - 1 == lo || (f(r.value - 1).Ok? && f(r.value - 1).value > 0.0)
    decreases hi - lo
  {
    if hi - lo <= 1 then Ok(hi)
    else
      var mid := (lo + hi) / 2;
      var em :- f(mid);
      if em > 0.0 then Bisect(f, mid, hi) else Bisect(f, lo, mid)
  }

  /** `find_required_stages`: evaluate both ends, return N_min if it already beats the target,
      refuse if N_max does not reach it, else bisect. */
  function FindRequiredStages(f: int -> Result<real, SolveError>, nMin: int, nMax: int): (r: Result<int, SearchError>)
    ensures r.Ok? ==> f(r.value).Ok? && f(r.value).value <= 0.0
    ensures r.Ok? && nMin <= nMax ==> nMin <= r.value <= nMax
    ensures r.Ok? && r.value > nMin ==>
              f(r.value - 1).Ok? && (f(r.value - 1).value > 0.0 || (r.value - 1 == nMin && f(nMin).value == 0.0))
    ensures r == Err(StageLimitTooLow) <==>
              f(nMin).Ok? && f(nMax).Ok? && f(nMin).value >= 0.0 && f(nMax).value > 0.0
    ensures f(nMin).Err? ==> r == Err(SolveFailed(f(nMin).error))
    ensures f(nMin).Ok? && f(nMax).Err? ==> r == Err(SolveFailed(f(nMax).error))
  {
    var low := f(nMin);
    var high := f(nMax);
    if low.Err? then Err(SolveFailed(low.error))
    else if high.Err? then Err(SolveFailed(high.error))
    else if low.value < 0.0 then Ok(nMin)
    else if high.value > 0.0 then Err(StageLimitTooLow)
    else
      match Bisect(f, nMin, nMax)
      case Ok(n) => Ok(n)
      case Err(e) => Err(SolveFailed(e))
  }

  /** The search as the source runs it: both ends first, then the halving loop over
      [N_min, N_max], keeping N_min on the "objective positive" side and N_max on the other. */
  method SearchStages(f: int -> Result<real, SolveError>, nMin: int, nMax: int) returns (r: Result<int, SearchError>)
    ensures r == FindRequiredStages(f, nMin, nMax)
    ensures r.Ok? ==> f(r.value).Ok? && f(r.value).value <= 0.0
  {
    var low := f(nMin);
    var high := f(nMax);
    if low.Err? {
      return Err(SolveFailed(low.error));
    }
    if high.Err? {
      return Err(SolveFailed(high.error));
    }
    if low.value < 0.0 {
      return Ok(nMin);
    }
    if high.value > 0.0 {
      return Err(StageLimitTooLow);
    }
    var lo, hi := nMin, nMax;
    while hi - lo > 1
      invariant Bisect(f, lo, hi) == Bisect(f, nMin, nMax)
      invariant f(hi).Ok? && f(hi).value <= 0.0
      decreases hi - lo
    {
      var mid := (lo + hi) / 2;
      var em := f(mid);
      if em.Err? {
        return Err(SolveFailed(em.error));
      }
      if em.value > 0.0 {
        lo := mid;
      } else {
        hi := mid;
      }
    }
    return Ok(hi);
  }

  lemma {:induction false} BisectOnFlatObjective(f: int -> Result<real, SolveError>, lo: int, hi: int)
    requires lo < hi
    requires forall k :: lo <= k <= hi ==> f(k) == Ok(0.0)
    ensures Bisect(f, lo, hi) == Ok(lo + 1)
    decreases hi - lo
  {
    if hi - lo > 1 {
      var mid := (lo + hi) / 2;
      assert f(mid) == Ok(0.0);
      BisectOnFlatObjective(f, lo, mid);
    }
  }

  /** An objective that is zero everywhere in the bracket sends the search to N_min + 1. */
  lemma FlatObjectiveSearch(f: int -> Result<real, SolveError>, nMin: int, nMax: int)
    requires nMin < nMax
    requires forall k :: nMin <= k <= nMax ==> f(k) == Ok(0.0)
    ensures FindRequiredStages(f, nMin, nMax) == Ok(nMin + 1)
  {
    BisectOnFlatObjective(f, nMin, nMax);
  }

  /** As written, the search returns 6 stages for every design whose solves converge on
      [5, 100], because the objective reads the frozen top point. */
  lemma AsWrittenSearchReturnsSix(t: Tier1Summary, alpha: real -> real, engine: Engine, settings: SolverSettings)
    requires Physical(t) && settings.rule == KeepSeed
    requires forall n :: SearchMinStages <= n <= SearchMaxStages ==> SolveSpec(t, alpha, engine, n, settings).Ok?
    ensures FindRequiredStages(OutletGap(t, alpha, engine, settings, t.outletMgL), SearchMinStages, SearchMaxStages) == Ok(6)
  {
    var f := OutletGap(t, alpha, engine, settings, t.outletMgL);
    forall k | SearchMinStages <= k <= SearchMaxStages ensures f(k) == Ok(0.0) {
      SolvedOutletIsTarget(t, alpha, engine, k, settings);
    }
    FlatObjectiveSearch(f, SearchMinStages, SearchMaxStages);
  }

  /** The corrected search: under the corrected top rule the objective reads the column's actual
      outlet, so the answer is a stage count whose solved outlet meets the target while one stage
      fewer (above N_min) leaves it above the target, or at it only when that count is N_min. */
  lemma CorrectedSearchIsMinimal(t: Tier1Summary, alpha: real -> real, engine: Engine, settings: SolverSettings)
    requires Physical(t) && settings.rule == TakeLastStage
    ensures var r := FindRequiredStages(OutletGap(t, alpha, engine, settings, t.outletMgL), SearchMinStages, SearchMaxStages);
            r.Ok? ==>
              && SearchMinStages <= r.value <= SearchMaxStages
              && SolveSpec(t, alpha, engine, r.value, settings).Ok?
              && Last(SolveSpec(t, alpha, engine, r.value, settings).value.profiles.c) <= t.outletMgL
              && (r.value > SearchMinStages ==>
                    && SolveSpec(t, alpha, engine, r.value - 1, settings).Ok?
                    && (Last(SolveSpec(t, alpha, engine, r.value - 1, settings).value.profiles.c) > t.outletMgL
                        || (r.value - 1 == SearchMinStages
                            && Last(SolveSpec(t, alpha, engine, r.value - 1, settings).value.profiles.c) == t.outletMgL)))
  {
    var f := OutletGap(t, alpha, engine, settings, t.outletMgL);
    var r := FindRequiredStages(f, SearchMinStages, SearchMaxStages);
    if r.Ok? {
      var n := r.value;
      assert f(n).Ok? && f(n).value + t.outletMgL == Last(SolveSpec(t, alpha, engine, n, settings).value.profiles.c);
      if n > SearchMinStages {
        assert f(n - 1).Ok?;
        assert f(n - 1).value + t.outletMgL == Last(SolveSpec(t, alpha, engine, n - 1, settings).value.profiles.c);
      }
    }
  }

  /** A concrete as-written fixed point: one stage, an engine that strips nothing, feed 10 mg/L
      and target 1 mg/L. The profile [10, 1] is reproduced by the iteration, so the top point
      reports the target met while the stage passed the feed through untouched; the mass-balance
      report then sees a 90 % gap. The corrected rule moves the top point to 10. */
  lemma AsWrittenAcceptsUnstrippedColumn()
    ensures var t := Tier1Summary("VOC", 10.0, 1.0, None, 25.0, 8.59, 131.388, 30.0, 1.0, 30.0, 3.0, 1.0, 0.5);
            var engine: Engine := (c, g, ph) => EngineState(0.0, 1.0, 0.0, ph);
            var p := Profiles([10.0, 1.0], [0.0, 0.0], [7.0, 7.0]);
            Step(ColumnFor(t, 1, KeepSeed), engine, p) == p
            && Step(ColumnFor(t, 1, TakeLastStage), engine, p).c[1] == 5.5
            && MassBalanceCheck(t, p.c, p.y).errorFraction == Finite(0.9)
            && !MassBalanceCheck(t, p.c, p.y).passed
  {
    var t := Tier1Summary("VOC", 10.0, 1.0, None, 25.0, 8.59, 131.388, 30.0, 1.0, 30.0, 3.0, 1.0, 0.5);
    var engine: Engine := (c, g, ph) => EngineState(0.0, 1.0, 0.0, ph);
    var p := Profiles([10.0, 1.0], [0.0, 0.0], [7.0, 7.0]);
    var col := ColumnFor(t, 1, KeepSeed);
    var stage := StageAt(col, engine, p, 0);
    assert stage == StageOut(10.0, 0.0, 7.0);
    var s := SweepSpec(col, engine, p);
    assert s.c == p.c && s.y == p.y && s.ph == p.ph;
    StepFixedPoint(col, engine, p);
    var fixedCol := ColumnFor(t, 1, TakeLastStage);
    assert StageAt(fixedCol, engine, p, 0) == StageOut(10.0, 0.0, 7.0);
    assert SweepSpec(fixedCol, engine, p).c[1] == 10.0;
    assert Step(fixedCol, engine, p).c[1] == 0.5 * 10.0 + 0.5 * 1.0;
    var m := MassBalanceCheck(t, p.c, p.y);
    assert p.y[0] - Last(p.y) == 0.0;
    assert m.massStrippedMgH == 0.0;
    assert m.massOutWaterMgH + m.massStrippedMgH - m.massInMgH == -9000.0;
  }

  // ---------------------------------------------------------------------------
  // Height and result assembly
  // ---------------------------------------------------------------------------

  datatype HeightEstimate = HeightEstimate(packedHeightM: real, hetpM: real)

  /** Packed height = N x HETP, with HETP the Tier 1 HTU times 1.2. */
  function PackedHeight(stages: int, htuM: real): (h: HeightEstimate)
    ensures h.hetpM != 0.0 ==> h.packedHeightM / h.hetpM == stages as real
    ensures h.hetpM / HetpSafetyFactor == htuM
    ensures htuM > 0.0 ==> h.hetpM > htuM && (stages >= 1 ==> h.packedHeightM >= h.hetpM)
  {
    var hetp := htuM * HetpSafetyFactor;
    HeightEstimate((stages as real) * hetp, hetp)
  }

  /** Stage count used when none is given: one stage per 0.5 m of Tier 1 height, at least 10. */
  function DefaultStageCount(tier1HeightM: real): (n: int)
    ensures n >= MinDefaultStages
    ensures tier1HeightM >= 5.0 ==> (n as real) * MetresPerDefaultStage <= tier1HeightM < ((n + 1) as real) * MetresPerDefaultStage
    ensures tier1HeightM < 5.5 ==> n == MinDefaultStages
  {
    var perHeight := Truncate(tier1HeightM / MetresPerDefaultStage);
    if MinDefaultStages >= perHeight then MinDefaultStages else perHeight
  }

  /** Strippable fraction per point: from the correlation for H2S and CO2, 1 otherwise. */
  function AlphaProfile(application: string, alpha: real -> real, ph: seq<real>): (a: seq<real>)
    ensures |a| == |ph|
    ensures PhSensitive(application) ==> forall i :: 0 <= i < |ph| ==> a[i] == alpha(ph[i])
    ensures !PhSensitive(application) ==> forall i :: 0 <= i < |ph| ==> a[i] == 1.0
  {
    if PhSensitive(application) then seq(|ph|, i requires 0 <= i < |ph| => alpha(ph[i]))
    else seq(|ph|, i requires 0 <= i < |ph| => 1.0)
  }

  datatype StageTable = StageTable(stageNumbers: seq<int>, liquidMgL: seq<real>, gasPpm: seq<real>,
                                   ph: seq<real>, alpha: seq<real>)

  datatype ConvergenceInfo = ConvergenceInfo(innerIterations: nat, converged: bool,
                                             massBalance: Option<MassBalanceReport>)

  datatype Tier2Result = Tier2Result(towerHeightM: real, towerDiameterM: real, theoreticalStages: int,
                                     hetpM: real, table: StageTable, convergence: ConvergenceInfo)

  datatype SimulationError =
    | SearchFailed(search: SearchError)
    | SolverFailed(solve: SolveError)
    | ZeroTier1Height   // the height ratio against a zero Tier 1 height raises

  /** The tool's options, plus the top-point rule: `KeepSeed` is the simulation as written,
      `TakeLastStage` the corrected one (see the findings). */
  datatype SimulationOptions = SimulationOptions(numStagesInitial: Option<int>, findOptimalStages: bool,
                                                 tolerance: real, maxInnerIterations: int, validateMassBalance: bool,
                                                 rule: TopRule)

  /** The inner-solve settings the simulation uses. */
  function SettingsFor(opts: SimulationOptions): SolverSettings
  {
    SolverSettings(opts.tolerance, opts.maxInnerIterations, opts.rule)
  }

  /** The result record for a converged solve at N stages: height from N x HETP, the profiles
      with the gas as ppm, the alpha profile and the convergence summary. */
  function AssembleResult(t: Tier1Summary, alpha: real -> real, opts: SimulationOptions, n: nat, sol: Solution): (r: Tier2Result)
    requires Physical(t) && Shaped(sol.profiles, n)
    ensures r.theoreticalStages == n
    ensures r.table.liquidMgL == sol.profiles.c && r.table.ph == sol.profiles.ph
    ensures |r.table.gasPpm| == n + 1
    ensures forall i :: 0 <= i <= n ==> r.table.gasPpm[i] == 1000000.0 * sol.profiles.y[i]
    ensures |r.table.stageNumbers| == n + 1 && forall i :: 0 <= i <= n ==> r.table.stageNumbers[i] == i
    ensures r.table.alpha == AlphaProfile(t.application, alpha, sol.profiles.ph)
    ensures r.convergence.innerIterations == sol.iterations && r.convergence.converged == sol.converged
    ensures r.convergence.massBalance.Some? <==> opts.validateMassBalance
    ensures opts.validateMassBalance ==> r.convergence.massBalance.value == MassBalanceCheck(t, sol.profiles.c, sol.profiles.y)
    ensures r.towerHeightM == (n as real) * r.hetpM && r.hetpM == HetpSafetyFactor * t.htuM
    ensures r.towerDiameterM == t.towerDiameterM
  {
    var massBalance := if opts.validateMassBalance then Some(MassBalanceCheck(t, sol.profiles.c, sol.profiles.y)) else None;
    var height := PackedHeight(n, t.htuM);
    var table := StageTable(seq(n + 1, i => i), sol.profiles.c,
                            seq(n + 1, i requires 0 <= i <= n => sol.profiles.y[i] * 1000000.0),
                            sol.profiles.ph, AlphaProfile(t.application, alpha, sol.profiles.ph));
    var info := ConvergenceInfo(sol.iterations, sol.converged, massBalance);
    Tier2Result(height.packedHeightM, t.towerDiameterM, n, height.hetpM, table, info)
  }

  /** `staged_column_simulation`: pick the stage count (search or given or default), solve,
      optionally report the mass balance, convert to height and assemble the profiles. As
      written (`KeepSeed`) every reported outlet is the target itself, and a search whose solves
      all converge always answers 6 stages. */
  method StagedColumnSimulation(t: Tier1Summary, alpha: real -> real, engine: Engine, opts: SimulationOptions)
    returns (r: Result<Tier2Result, SimulationError>)
    requires Physical(t)
    ensures r.Ok? && opts.findOptimalStages ==>
              FindRequiredStages(OutletGap(t, alpha, engine, SettingsFor(opts), t.outletMgL), SearchMinStages, SearchMaxStages)
              == Ok(r.value.theoreticalStages)
    ensures r.Ok? && !opts.findOptimalStages ==>
              r.value.theoreticalStages
              == (if opts.numStagesInitial.Some? then opts.numStagesInitial.value else DefaultStageCount(t.towerHeightM))
    ensures r.Ok? ==>
              var n := r.value.theoreticalStages;
              n >= 1 && SolveSpec(t, alpha, engine, n, SettingsFor(opts)).Ok?
              && r.value == AssembleResult(t, alpha, opts, n, SolveSpec(t, alpha, engine, n, SettingsFor(opts)).value)
    ensures t.towerHeightM == 0.0 ==> !r.Ok?
    ensures opts.findOptimalStages ==>
              var found := FindRequiredStages(OutletGap(t, alpha, engine, SettingsFor(opts), t.outletMgL), SearchMinStages, SearchMaxStages);
              found.Err? ==> r == Err(SearchFailed(found.error))
    ensures r.Ok? && opts.rule == KeepSeed ==> Last(r.value.table.liquidMgL) == t.outletMgL
    ensures r.Ok? && opts.rule == KeepSeed && opts.findOptimalStages
            && (forall k :: SearchMinStages <= k <= SearchMaxStages ==> SolveSpec(t, alpha, engine, k, SettingsFor(opts)).Ok?)
            ==> r.value.theoreticalStages == 6
  {
    var settings := SettingsFor(opts);
    var n: int;
    if opts.findOptimalStages {
      var found := SearchStages(OutletGap(t, alpha, engine, settings, t.outletMgL), SearchMinStages, SearchMaxStages);
      if found.Err? {
        return Err(SearchFailed(found.error));
      }
      n := found.value;
      if opts.rule == KeepSeed
         && forall k :: SearchMinStages <= k <= SearchMaxStages ==> SolveSpec(t, alpha, engine, k, settings).Ok? {
        AsWrittenSearchReturnsSix(t, alpha, engine, settings);
      }
    } else {
      n := if opts.numStagesInitial.Some? then opts.numStagesInitial.value else DefaultStageCount(t.towerHeightM);
    }
    var solved := Solve(t, alpha, engine, n, settings);
    if solved.Err? {
      return Err(SolverFailed(solved.error));
    }
    if t.towerHeightM == 0.0 {
      return Err(ZeroTier1Height);
    }
    if settings.rule == KeepSeed {
      SolvedOutletIsTarget(t, alpha, engine, n, settings);
    }
    return Ok(AssembleResult(t, alpha, opts, n, solved.value));
  }
}
