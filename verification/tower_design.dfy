/** Heuristic tower design: the digitised flood line of the generalised pressure-drop
    correlation, the flooding and design velocities, transfer units, the HTU estimate with its
    clamp, the height with safety factor and disengagement space, the cross-section, and the
    glue that turns a design request and a packing into a tower. Square roots, logarithms,
    powers of ten and fractional powers are supplied as a `Math` value.
 */
module TowerDesign {
  import opened Basics
  import PackingProperties

  /** The transcendental functions the formulas call, as the math library provides them. */
  datatype Math = Math(sqrt: real -> real, ln: real -> real, log10: real -> real, exp10: real -> real,
                       pow: (real, real) -> real)

  /** log10 is strictly increasing on positive arguments: the one property of the library the
      interpolation relies on to avoid a zero denominator. */
  ghost predicate StrictLog(m: Math)
  {
    forall x, y :: 0.0 < x < y ==> m.log10(x) < m.log10(y)
  }

  /** exp10 is increasing and undoes log10 on positive arguments. */
  ghost predicate ExpInvertsLog(m: Math)
  {
    (forall x, y :: x <= y ==> m.exp10(x) <= m.exp10(y))
    && (forall x :: 0.0 < x ==> m.exp10(m.log10(x)) == x)
  }

  datatype TowerError =
    | ZeroDivision    // a float division by zero raises
    | NoPacking       // the default lookup found an empty catalog
    | MissingField    // the packing lacks its name or nominal size
    | MathDomain      // `math.sqrt` of a negative or `math.log` of a non-positive number raises ValueError

  // ---------------------------------------------------------------------------
  // Flood line
  // ---------------------------------------------------------------------------

  /** Digitised flood line: (flow parameter, capacity parameter at flooding). */
  const FloodLine: seq<(real, real)> := [
    (0.01, 0.40), (0.02, 0.35), (0.05, 0.28), (0.1, 0.23), (0.2, 0.18),
    (0.5, 0.13), (1.0, 0.10), (2.0, 0.075), (5.0, 0.055)
  ]

  /** Capacity returned when no segment brackets the flow parameter. */
  const FallbackCapacity: real := 0.2

  /** Along the flood line the flow parameter strictly increases and the capacity strictly
      decreases. */
  lemma FloodLineMonotone()
    ensures forall i, j :: 0 <= i < j < |FloodLine| ==> FloodLine[i].0 < FloodLine[j].0 && FloodLine[i].1 > FloodLine[j].1
  {
  }

  /** Linear interpolation in log-log space between (x1, y1) and (x2, y2); a zero log-span would
      raise. The fraction of the segment is formed first, which in exact arithmetic equals the
      product-then-quotient order of the Python expression. */
  function LogLogInterpolate(m: Math, x1: real, y1: real, x2: real, y2: real, x: real): Result<real, TowerError>
  {
    var span := m.log10(x2) - m.log10(x1);
    if span == 0.0 then Err(ZeroDivision)
    else
      var t := (m.log10(x) - m.log10(x1)) / span;
      Ok(m.exp10(m.log10(y1) + (m.log10(y2) - m.log10(y1)) * t))
  }

  /** Log-log interpolation on segment i. */
  function Interpolate(m: Math, i: nat, flp: real): Result<real, TowerError>
    requires i < |FloodLine| - 1
  {
    LogLogInterpolate(m, FloodLine[i].0, FloodLine[i].1, FloodLine[i + 1].0, FloodLine[i + 1].1, flp)
  }

  /** The scan over segments from index `i` on: the first segment [x_k, x_{k+1}] holding the
      flow parameter is interpolated; past the last one the fallback is returned. */
  function CapacityFrom(m: Math, flp: real, i: nat): Result<real, TowerError>
    decreases |FloodLine| - i
  {
    if i >= |FloodLine| - 1 then Ok(FallbackCapacity)
    else if FloodLine[i].0 <= flp <= FloodLine[i + 1].0 then Interpolate(m, i, flp)
    else CapacityFrom(m, flp, i + 1)
  }

  /** `get_gpdc_flood_capacity`: the end capacities beyond the digitised range, the scan inside it. */
  function FloodCapacity(m: Math, flp: real): (c: Result<real, TowerError>)
    ensures flp <= FloodLine[0].0 ==> c == Ok(0.40)
    ensures flp >= FloodLine[|FloodLine| - 1].0 ==> c == Ok(0.055)
    ensures FloodLine[0].0 < flp < FloodLine[|FloodLine| - 1].0 ==> c == CapacityFrom(m, flp, 0)
  {
    if flp <= FloodLine[0].0 then Ok(FloodLine[0].1)
    else if flp >= FloodLine[|FloodLine| - 1].0 then Ok(FloodLine[|FloodLine| - 1].1)
    else CapacityFrom(m, flp, 0)
  }

  /** Segment j is the first one, scanning from index i, whose ends bracket `flp`. */
  ghost predicate FirstSegmentFrom(flp: real, i: nat, j: nat)
  {
    i <= j < |FloodLine| - 1 && FloodLine[j].0 <= flp <= FloodLine[j + 1].0
    && forall k :: i < k <= j ==> flp > FloodLine[k].0
  }

  /** A scan starting at a segment whose left end is at most the flow parameter, which lies below
      the last point, ends on the first segment holding it: the fallback is never reached. */
  lemma {:induction false} CapacityFromFinds(m: Math, flp: real, i: nat) returns (j: nat)
    requires i < |FloodLine| - 1 && FloodLine[i].0 <= flp < FloodLine[|FloodLine| - 1].0
    ensures FirstSegmentFrom(flp, i, j) && CapacityFrom(m, flp, i) == Interpolate(m, j, flp)
    decreases |FloodLine| - i
  {
    if flp > FloodLine[i + 1].0 {
      j := CapacityFromFinds(m, flp, i + 1);
    } else {
      j := i;
    }
  }

  /** Inside the line's range the capacity is interpolated on the first segment holding the flow
      parameter, and with a strictly increasing log10 that interpolation cannot divide by zero. */
  lemma FloodCapacityInterpolates(m: Math, flp: real) returns (i: nat)
    requires FloodLine[0].0 < flp < FloodLine[|FloodLine| - 1].0
    ensures FirstSegmentFrom(flp, 0, i) && FloodCapacity(m, flp) == Interpolate(m, i, flp)
    ensures StrictLog(m) ==> FloodCapacity(m, flp).Ok?
  {
    i := CapacityFromFinds(m, flp, 0);
    if StrictLog(m) {
      FloodLineMonotone();
      assert m.log10(FloodLine[i].0) < m.log10(FloodLine[i + 1].0);
    }
  }

  /** With a monotone exp10 that undoes log10, the interpolated capacity stays between the
      capacities at the ends of its segment, so every capacity lies in [0.055, 0.40]. */
  lemma FloodCapacityBounds(m: Math, flp: real)
    requires StrictLog(m) && ExpInvertsLog(m)
    ensures FloodCapacity(m, flp).Ok?
    ensures 0.055 <= FloodCapacity(m, flp).value <= 0.40
  {
    if FloodLine[0].0 < flp < FloodLine[|FloodLine| - 1].0 {
      var i := FloodCapacityInterpolates(m, flp);
      FloodLineMonotone();
      InterpolationBetween(m, FloodLine[i].0, FloodLine[i].1, FloodLine[i + 1].0, FloodLine[i + 1].1, flp);
      assert FloodLine[i].1 <= FloodLine[0].1;
      assert FloodLine[i + 1].1 >= FloodLine[|FloodLine| - 1].1;
    }
  }

  /** On a falling segment the interpolated value lies between the segment's end values. */
  lemma InterpolationBetween(m: Math, x1: real, y1: real, x2: real, y2: real, x: real)
    requires StrictLog(m) && ExpInvertsLog(m)
    requires 0.0 < x1 <= x <= x2 && x1 < x2 && 0.0 < y2 < y1
    ensures LogLogInterpolate(m, x1, y1, x2, y2, x).Ok?
    ensures y2 <= LogLogInterpolate(m, x1, y1, x2, y2, x).value <= y1
  {
    var lx, lx1, lx2 := m.log10(x), m.log10(x1), m.log10(x2);
    assert lx1 < lx2;
    assert lx1 <= lx <= lx2 by {
      if x1 < x { assert m.log10(x1) < m.log10(x); }
      if x < x2 { assert m.log10(x) < m.log10(x2); }
    }
    var ly1, ly2 := m.log10(y1), m.log10(y2);
    assert ly2 < ly1;
    var logY := InterpolationStep(lx, lx1, lx2, ly1, ly2);
    ExpMonotone(m, ly2, logY);
    ExpMonotone(m, logY, ly1);
    assert m.exp10(ly1) == y1 && m.exp10(ly2) == y2;
  }

  /** The log of the interpolated value lies between the logs of the end values. */
  lemma InterpolationStep(lx: real, lx1: real, lx2: real, ly1: real, ly2: real) returns (logY: real)
    requires lx1 <= lx <= lx2 && lx1 < lx2 && ly2 < ly1
    ensures logY == ly1 + (ly2 - ly1) * ((lx - lx1) / (lx2 - lx1))
    ensures ly2 <= logY <= ly1
  {
    var t := (lx - lx1) / (lx2 - lx1);
    FractionInUnit(lx - lx1, lx2 - lx1);
    logY := ly1 + (ly2 - ly1) * t;
    ScaledStepBetween(ly1, ly2, t);
  }

  lemma ExpMonotone(m: Math, a: real, b: real)
    requires ExpInvertsLog(m) && a <= b
    ensures m.exp10(a) <= m.exp10(b)
  {
  }

  lemma FractionInUnit(p: real, q: real)
    requires 0.0 <= p <= q && 0.0 < q
    ensures 0.0 <= p / q <= 1.0
  {
  }

  lemma ScaledStepBetween(a: real, b: real, t: real)
    requires b < a && 0.0 <= t <= 1.0
    ensures b <= a + (b - a) * t <= a
  {
    var c := a - b;
    assert c * t >= 0.0;
    assert c * (1.0 - t) >= 0.0;
    assert (b - a) * t == -(c * t);
    assert c * (1.0 - t) == c - c * t;
  }

  // ---------------------------------------------------------------------------
  // Flooding velocity
  // ---------------------------------------------------------------------------

  datatype Flooding = Flooding(floodVelocity: real, floodFFactor: real, flowParameter: real, capacity: real,
                               floodDropPa: real, designVelocity: real, designFFactor: real, kinematicViscosityCs: real)

  /** Fraction of flooding used for design. */
  const DesignFraction: real := 0.7

  /** Gas mass velocity assumed, as a fraction of the liquid one, when none is given. */
  const AssumedGasFraction: real := 0.05

  /** Kinematic viscosity in cSt from dynamic viscosity in cP and density in kg/m^3. */
  function KinematicViscosityCs(viscosityCp: real, density: real): (nu: real)
    requires density != 0.0
    ensures nu * density == viscosityCp * 1000.0
  {
    var muPaS := viscosityCp * 0.001;
    var nuM2s := muPaS / density;
    assert nuM2s * density == muPaS;
    nuM2s * 1000000.0
  }

  /** The gas mass velocity used: the given one, or 5 % of the liquid one when none is given. */
  function EffectiveGasRate(liquidRate: real, gasRate: real): real
  {
    if gasRate <= 0.0 then liquidRate * AssumedGasFraction else gasRate
  }

  /** The product (rhoG/(rhoL - rhoG))^0.5 * Fp^0.5 * nu^0.05 by which the capacity parameter divides
      the flooding velocity. */
  function CapacityDivisor(m: Math, gasDensity: real, liquidDensity: real, packingFactor: real, nuCs: real): real
    requires liquidDensity - gasDensity != 0.0
  {
    m.sqrt(gasDensity / (liquidDensity - gasDensity)) * m.sqrt(packingFactor) * m.pow(nuCs, 0.05)
  }

  /** `calculate_eckert_flooding_velocity`: rates in kg/(m^2*s), densities in kg/m^3, viscosity in
      cP, packing factor in 1/m. The surface tension argument is unused by the source. */
  function EckertFlooding(m: Math, liquidRate: real, gasRate: real, gasDensity: real, liquidDensity: real,
                          liquidViscosityCp: real, packingFactor: real): (r: Result<Flooding, TowerError>)
    ensures liquidDensity == 0.0 || liquidDensity == gasDensity || EffectiveGasRate(liquidRate, gasRate) == 0.0 ==>
              r == Err(ZeroDivision)
    ensures r.Ok? ==> liquidDensity != 0.0 && liquidDensity != gasDensity && EffectiveGasRate(liquidRate, gasRate) != 0.0
    ensures liquidDensity != 0.0 && EffectiveGasRate(liquidRate, gasRate) != 0.0 && gasDensity / liquidDensity < 0.0 ==>
              r == Err(MathDomain)
    ensures r.Ok? ==> gasDensity / liquidDensity >= 0.0 && gasDensity / (liquidDensity - gasDensity) >= 0.0
                      && packingFactor >= 0.0 && gasDensity >= 0.0
    ensures r.Ok? ==> r.value.designVelocity == DesignFraction * r.value.floodVelocity
    ensures r.Ok? ==> r.value.designFFactor == DesignFraction * r.value.floodFFactor
  {
    if liquidDensity == 0.0 then Err(ZeroDivision)
    else
      var nuCs := KinematicViscosityCs(liquidViscosityCp, liquidDensity);
      var g := EffectiveGasRate(liquidRate, gasRate);
      if g == 0.0 then Err(ZeroDivision)
      else if gasDensity / liquidDensity < 0.0 then Err(MathDomain)
      else
        var flp := (liquidRate / g) * m.sqrt(gasDensity / liquidDensity);
        var capacity :- FloodCapacity(m, flp);
        if liquidDensity - gasDensity == 0.0 then Err(ZeroDivision)
        else if gasDensity / (liquidDensity - gasDensity) < 0.0 || packingFactor < 0.0 then Err(MathDomain)
        else
          var divisor := CapacityDivisor(m, gasDensity, liquidDensity, packingFactor, nuCs);
          if divisor == 0.0 then Err(ZeroDivision)
          else if gasDensity < 0.0 then Err(MathDomain)
          else
            var ut := capacity / divisor;
            var fs := ut * m.sqrt(gasDensity);
            Ok(Flooding(ut, fs, flp, capacity, 0.12 * m.pow(packingFactor, 0.7), ut * DesignFraction,
                        fs * DesignFraction, nuCs))
  }

  /** The capacity parameter is read off the flood line at the flow parameter (L/G)*(rhoG/rhoL)^0.5,
      with G the effective gas rate; the viscosity term uses the kinematic viscosity in cSt. */
  lemma EckertFlowParameter(m: Math, liquidRate: real, gasRate: real, gasDensity: real, liquidDensity: real,
                            liquidViscosityCp: real, packingFactor: real)
    ensures var r := EckertFlooding(m, liquidRate, gasRate, gasDensity, liquidDensity, liquidViscosityCp, packingFactor);
            r.Ok? ==>
              && r.value.kinematicViscosityCs == KinematicViscosityCs(liquidViscosityCp, liquidDensity)
              && r.value.flowParameter == (liquidRate / EffectiveGasRate(liquidRate, gasRate)) * m.sqrt(gasDensity / liquidDensity)
              && FloodCapacity(m, r.value.flowParameter) == Ok(r.value.capacity)
  {
  }

  /** The flooding velocity solves Perry's capacity equation: multiplied by the density, packing
      and viscosity terms it gives the capacity parameter; the F-factor is that velocity times
      rhoG^0.5. */
  lemma EckertSolvesCapacityEquation(m: Math, liquidRate: real, gasRate: real, gasDensity: real, liquidDensity: real,
                                     liquidViscosityCp: real, packingFactor: real)
    ensures var r := EckertFlooding(m, liquidRate, gasRate, gasDensity, liquidDensity, liquidViscosityCp, packingFactor);
            r.Ok? ==>
              && r.value.floodVelocity * CapacityDivisor(m, gasDensity, liquidDensity, packingFactor, r.value.kinematicViscosityCs)
                 == r.value.capacity
              && r.value.floodFFactor == r.value.floodVelocity * m.sqrt(gasDensity)
  {
    var r := EckertFlooding(m, liquidRate, gasRate, gasDensity, liquidDensity, liquidViscosityCp, packingFactor);
    if r.Ok? {
      var v := r.value;
      var divisor := CapacityDivisor(m, gasDensity, liquidDensity, packingFactor, v.kinematicViscosityCs);
      assert divisor != 0.0 && v.floodVelocity == v.capacity / divisor;
      DivideThenMultiply(v.capacity, divisor);
    }
  }

  lemma DivideThenMultiply(a: real, b: real)
    requires b != 0.0
    ensures (a / b) * b == a
  {
  }

  /** Without a gas rate the flow parameter is 20 times the density-ratio root: the assumed gas
      rate is 5 % of the liquid rate. */
  lemma MissingGasRateFlowParameter(m: Math, liquidRate: real, gasRate: real, gasDensity: real, liquidDensity: real,
                                    liquidViscosityCp: real, packingFactor: real)
    requires gasRate <= 0.0
    ensures var r := EckertFlooding(m, liquidRate, gasRate, gasDensity, liquidDensity, liquidViscosityCp, packingFactor);
            r.Ok? ==> r.value.flowParameter == 20.0 * m.sqrt(gasDensity / liquidDensity)
  {
    if liquidRate != 0.0 {
      assert liquidRate / (liquidRate * AssumedGasFraction) == 20.0;
    }
  }

  // ---------------------------------------------------------------------------
  // Diameter, transfer units, HTU and height
  // ---------------------------------------------------------------------------

  datatype Diameter = Diameter(diameterM: real, areaM2: real, designVelocity: real)

  /** `calculate_tower_diameter`: the cross-section passes the gas at the design velocity, and
      the diameter is that of a circle of that area. */
  function TowerDiameter(m: Math, gasM3s: real, designVelocity: real): (r: Result<Diameter, TowerError>)
    ensures r.Err? <==> designVelocity == 0.0 || gasM3s / designVelocity < 0.0
    ensures r.Err? ==> (r.error == ZeroDivision <==> designVelocity == 0.0) && (r.error == ZeroDivision || r.error == MathDomain)
    ensures r.Ok? ==> r.value.areaM2 * designVelocity == gasM3s && r.value.designVelocity == designVelocity
    ensures r.Ok? ==> r.value.diameterM == m.sqrt(4.0 * r.value.areaM2 / Pi)
  {
    if designVelocity == 0.0 then Err(ZeroDivision)
    else
      var area := gasM3s / designVelocity;
      if 4.0 * area / Pi < 0.0 then Err(MathDomain)
      else Ok(Diameter(m.sqrt(4.0 * area / Pi), area, designVelocity))
  }

  /** With a square root that inverts squaring, the diameter's circle has the computed area. */
  lemma DiameterMatchesArea(m: Math, gasM3s: real, designVelocity: real)
    requires forall x :: x >= 0.0 ==> m.sqrt(x) >= 0.0 && m.sqrt(x) * m.sqrt(x) == x
    requires designVelocity != 0.0 && gasM3s / designVelocity >= 0.0
    ensures var d := TowerDiameter(m, gasM3s, designVelocity).value;
            Pi * (d.diameterM * d.diameterM) == 4.0 * d.areaM2
  {
    var area := gasM3s / designVelocity;
    assert 4.0 * area / Pi >= 0.0;
    var root := m.sqrt(4.0 * area / Pi);
    assert root * root == 4.0 * area / Pi;
  }

  /** Above this stripping factor the transfer units are the plain log of the concentration ratio. */
  const HighStrippingFactor: real := 10.0

  /** The stripping factor, taken as H*(A/W) for a volumetric ratio and dimensionless H. */
  function StrippingFactor(henry: real, airWaterRatio: real): real
  {
    henry * airWaterRatio
  }

  /** `calculate_ntu_simple`: a zero divisor raises ZeroDivisionError, and a logarithm of a
      non-positive number raises ValueError. */
  function TransferUnits(m: Math, inlet: real, outlet: real, henry: real, airWaterRatio: real): (r: Result<real, TowerError>)
    ensures StrippingFactor(henry, airWaterRatio) > HighStrippingFactor ==>
              (r.Err? <==> outlet == 0.0 || inlet / outlet <= 0.0) && (r.Ok? ==> r.value == m.ln(inlet / outlet))
    ensures StrippingFactor(henry, airWaterRatio) <= HighStrippingFactor ==>
              (r.Err? <==> inlet == 0.0 || StrippingFactor(henry, airWaterRatio) == 0.0
                           || ColburnArgument(1.0 - outlet / inlet, StrippingFactor(henry, airWaterRatio)) <= 0.0)
    ensures var s := StrippingFactor(henry, airWaterRatio);
            s <= HighStrippingFactor && inlet != 0.0 && s != 0.0 && ColburnArgument(1.0 - outlet / inlet, s) > 0.0 ==>
              r == Ok(-m.ln(ColburnArgument(1.0 - outlet / inlet, s)))
    ensures var s := StrippingFactor(henry, airWaterRatio);
            r.Err? ==> (r.error == ZeroDivision <==> (if s > HighStrippingFactor then outlet == 0.0 else inlet == 0.0 || s == 0.0))
                       && (r.error == ZeroDivision || r.error == MathDomain)
  {
    var s := StrippingFactor(henry, airWaterRatio);
    if s > HighStrippingFactor then
      if outlet == 0.0 then Err(ZeroDivision)
      else if inlet / outlet <= 0.0 then Err(MathDomain)
      else Ok(m.ln(inlet / outlet))
    else if inlet == 0.0 || s == 0.0 then Err(ZeroDivision)
    else if ColburnArgument(1.0 - outlet / inlet, s) <= 0.0 then Err(MathDomain)
    else Ok(-m.ln(ColburnArgument(1.0 - outlet / inlet, s)))
  }

  /** The argument of the logarithm in the general branch: 1 - removal x (1 - 1/S). */
  function ColburnArgument(removal: real, s: real): real
    requires s != 0.0
  {
    1.0 - removal * (1.0 - 1.0 / s)
  }

  /** A target below the inlet at a stripping factor under 1 can ask for more removal than the
      column can give: CO2 (H = 0.83) at A/W = 1 from 0.001 to 0.01 mg/L makes the logarithm's
      argument negative, and the calculation raises. */
  lemma UnreachableTargetRaises(m: Math)
    ensures ColburnArgument(1.0 - 0.01 / 0.001, StrippingFactor(0.83, 1.0)) < 0.0
    ensures TransferUnits(m, 0.001, 0.01, 0.83, 1.0) == Err(MathDomain)
  {
    assert 0.01 / 0.001 == 10.0;
    assert StrippingFactor(0.83, 1.0) == 0.83;
    assert 1.0 / 0.83 > 1.2;
  }

  /** Both branches agree that no removal needs no transfer units (given ln 1 = 0). */
  lemma NoRemovalNoTransferUnits(m: Math, c: real, henry: real, airWaterRatio: real)
    requires m.ln(1.0) == 0.0 && c != 0.0 && StrippingFactor(henry, airWaterRatio) != 0.0
    ensures TransferUnits(m, c, c, henry, airWaterRatio) == Ok(0.0)
  {
    assert c / c == 1.0;
  }

  /** Below the threshold the transfer units are minus the log of a removal-weighted term, and
      a unit stripping factor makes that term 1 whatever the removal. */
  lemma UnitStrippingFactorTransferUnits(m: Math, inlet: real, outlet: real, henry: real, airWaterRatio: real)
    requires StrippingFactor(henry, airWaterRatio) == 1.0 && inlet != 0.0
    ensures TransferUnits(m, inlet, outlet, henry, airWaterRatio) == Ok(-m.ln(1.0))
  {
  }

  /** Packing-data HTU: 93/a_p, corrected for low lambda, scaled by wetting, clamped to [0.3, 3.0] m. */
  const HetpConstant: real := 93.0
  const MinHtu: real := 0.3
  const MaxHtu: real := 3.0
  const ReferenceVoidFraction: real := 0.75
  const HighLambda: real := 10.0

  function WettingFactor(voidFraction: real): real
  {
    1.0 + 0.2 * (voidFraction - ReferenceVoidFraction)
  }

  /** The unclamped estimate: HETP, the low-lambda correction and the wetting factor. */
  function RawHtu(m: Math, surfaceArea: real, voidFraction: real, lambda: real): real
    requires surfaceArea != 0.0 && (lambda < HighLambda ==> m.ln(lambda) != 0.0)
  {
    var hetp := HetpConstant / surfaceArea;
    var hog := if lambda < HighLambda then hetp * ((lambda - 1.0) / m.ln(lambda)) else hetp;
    hog * WettingFactor(voidFraction)
  }

  /** `calculate_htu_from_packing_data`. */
  function HtuFromPacking(m: Math, surfaceArea: real, voidFraction: real, lambda: real): (r: Result<real, TowerError>)
    ensures r.Err? <==> surfaceArea == 0.0 || (lambda < HighLambda && (lambda <= 0.0 || m.ln(lambda) == 0.0))
    ensures r.Err? ==> (r.error == MathDomain <==> surfaceArea != 0.0 && lambda <= 0.0)
                       && (r.error == ZeroDivision || r.error == MathDomain)
    ensures r.Ok? ==> MinHtu <= r.value <= MaxHtu
    ensures r.Ok? ==> r.value == Clamp(MinHtu, MaxHtu, RawHtu(m, surfaceArea, voidFraction, lambda))
  {
    if surfaceArea == 0.0 then Err(ZeroDivision)
    else if lambda < HighLambda && lambda <= 0.0 then Err(MathDomain)
    else if lambda < HighLambda && m.ln(lambda) == 0.0 then Err(ZeroDivision)
    else Ok(Clamp(MinHtu, MaxHtu, RawHtu(m, surfaceArea, voidFraction, lambda)))
  }

  /** At high lambda a packing with more surface per volume never gets a taller transfer unit. */
  lemma HtuFallsWithSurfaceArea(m: Math, a1: real, a2: real, voidFraction: real, lambda: real)
    requires 0.0 < a1 <= a2 && lambda >= HighLambda && WettingFactor(voidFraction) >= 0.0
    ensures HtuFromPacking(m, a2, voidFraction, lambda).value <= HtuFromPacking(m, a1, voidFraction, lambda).value
  {
    var w := WettingFactor(voidFraction);
    ReciprocalFalls(HetpConstant, a1, a2);
    ScaleMonotone(HetpConstant / a2, HetpConstant / a1, w);
    assert RawHtu(m, a1, voidFraction, lambda) == (HetpConstant / a1) * w;
    assert RawHtu(m, a2, voidFraction, lambda) == (HetpConstant / a2) * w;
    ClampMonotone(MinHtu, MaxHtu, RawHtu(m, a2, voidFraction, lambda), RawHtu(m, a1, voidFraction, lambda));
  }

  lemma ReciprocalFalls(k: real, a1: real, a2: real)
    requires k >= 0.0 && 0.0 < a1 <= a2
    ensures k / a2 <= k / a1
  {
  }

  /** At high lambda the estimate is HETP times wetting, clamped to [0.3, 3.0]. */
  lemma HighLambdaHtu(m: Math, surfaceArea: real, voidFraction: real, lambda: real)
    requires surfaceArea != 0.0 && lambda >= HighLambda
    ensures HtuFromPacking(m, surfaceArea, voidFraction, lambda)
            == Ok(Clamp(MinHtu, MaxHtu, (HetpConstant / surfaceArea) * WettingFactor(voidFraction)))
  {
    assert RawHtu(m, surfaceArea, voidFraction, lambda) == (HetpConstant / surfaceArea) * WettingFactor(voidFraction);
  }

  datatype Height = Height(theoreticalM: real, designM: real, disengagementM: real, totalM: real, ntu: real, htu: real)

  const DefaultPackingSafetyFactor: real := 1.2
  const MinDisengagementM: real := 0.5
  const DisengagementFraction: real := 0.1

  /** `calculate_tower_height`. */
  function TowerHeight(ntu: real, htu: real, safetyFactor: real): (h: Height)
    ensures h.theoreticalM == ntu * htu && h.designM == h.theoreticalM * safetyFactor
    ensures h.totalM == h.designM + h.disengagementM
    ensures h.disengagementM >= MinDisengagementM && h.disengagementM >= DisengagementFraction * h.designM
    ensures h.disengagementM == MinDisengagementM || h.disengagementM == DisengagementFraction * h.designM
    ensures h.ntu == ntu && h.htu == htu
  {
    var theoretical := ntu * htu;
    var design := theoretical * safetyFactor;
    var disengagement := Max(MinDisengagementM, DisengagementFraction * design);
    Height(theoretical, design, disengagement, design + disengagement, ntu, htu)
  }

  /** More transfer units never give a shorter tower (for a non-negative HTU and safety factor). */
  lemma TowerHeightMonotone(ntu1: real, ntu2: real, htu: real, safetyFactor: real)
    requires ntu1 <= ntu2 && htu >= 0.0 && safetyFactor >= 0.0
    ensures TowerHeight(ntu1, htu, safetyFactor).totalM <= TowerHeight(ntu2, htu, safetyFactor).totalM
  {
    ScaleMonotone(ntu1, ntu2, htu);
    ScaleMonotone(ntu1 * htu, ntu2 * htu, safetyFactor);
  }

  // ---------------------------------------------------------------------------
  // Design glue
  // ---------------------------------------------------------------------------

  /** Air-water properties the heuristic design assumes. */
  const AirDensity: real := 1.2
  const WaterDensity: real := 997.0
  const WaterViscosityCp: real := 0.89
  /** Liquid loading used to estimate the cross-section, m^3/(m^2*h). */
  const LiquidLoading: real := 20.0

  datatype Design = Design(
    application: string, diameterM: real, towerHeightM: real, packingHeightM: real,
    packingId: Option<string>, packingName: string, packingSizeMm: real, packingFactor: real, packingSurfaceArea: real,
    airFlowM3h: real, waterFlowM3h: real, airWaterRatio: real, ntu: real, htu: real, lambda: real,
    designVelocity: real, floodingVelocity: real, flowParameter: real, removalPercent: real)

  /** The packing a design uses: the requested id when it is given (non-empty) and known,
      otherwise the application's default. */
  function ChoosePacking(catalog: PackingProperties.Catalog, application: string, packingId: Option<string>)
    : (p: Option<PackingProperties.Packing>)
    ensures packingId.Some? && |packingId.value| > 0 && packingId.value in KeySet(catalog) ==>
              p == PackingProperties.PackingById(catalog, packingId.value)
    ensures !(packingId.Some? && |packingId.value| > 0 && packingId.value in KeySet(catalog)) ==>
              p == PackingProperties.DefaultPacking(catalog, application)
    ensures p.None? <==> |catalog| == 0
  {
    if packingId.Some? && |packingId.value| > 0 then
      match PackingProperties.PackingById(catalog, packingId.value)
      case Some(q) => Some(q)
      case None => PackingProperties.DefaultPacking(catalog, application)
    else PackingProperties.DefaultPacking(catalog, application)
  }

  /** The packed section: transfer units, transfer-unit height and the resulting heights. */
  function PackedSection(m: Math, p: PackingProperties.Packing, inlet: real, outlet: real, henry: real,
                         airWaterRatio: real): (r: Result<Height, TowerError>)
    ensures r.Ok? ==>
              var ntu := TransferUnits(m, inlet, outlet, henry, airWaterRatio);
              var htu := HtuFromPacking(m, p.surfaceAreaM2M3, p.voidFraction, StrippingFactor(henry, airWaterRatio));
              ntu.Ok? && htu.Ok? && r.value == TowerHeight(ntu.value, htu.value, DefaultPackingSafetyFactor)
    ensures r.Err? <==>
              TransferUnits(m, inlet, outlet, henry, airWaterRatio).Err?
              || HtuFromPacking(m, p.surfaceAreaM2M3, p.voidFraction, StrippingFactor(henry, airWaterRatio)).Err?
  {
    var ntu :- TransferUnits(m, inlet, outlet, henry, airWaterRatio);
    var htu :- HtuFromPacking(m, p.surfaceAreaM2M3, p.voidFraction, StrippingFactor(henry, airWaterRatio));
    Ok(TowerHeight(ntu, htu, DefaultPackingSafetyFactor))
  }

  /** The hydraulics: mass velocities through the area the liquid loading suggests, flooding at
      those rates, and the diameter for the design velocity. */
  function Hydraulics(m: Math, waterM3h: real, airM3h: real, packingFactor: real): (r: Result<(Flooding, Diameter), TowerError>)
    ensures waterM3h == 0.0 ==> r == Err(ZeroDivision)
    ensures r.Ok? ==>
              var area := waterM3h / LiquidLoading;
              area != 0.0
              && EckertFlooding(m, (waterM3h / area) * WaterDensity / 3600.0, (airM3h / area) * AirDensity / 3600.0,
                                AirDensity, WaterDensity, WaterViscosityCp, packingFactor) == Ok(r.value.0)
              && TowerDiameter(m, airM3h / 3600.0, r.value.0.designVelocity) == Ok(r.value.1)
  {
    var area := waterM3h / LiquidLoading;
    if area == 0.0 then Err(ZeroDivision)
    else
      var liquidRate := (waterM3h / area) * WaterDensity / 3600.0;
      var gasRate := (airM3h / area) * AirDensity / 3600.0;
      var flood :- EckertFlooding(m, liquidRate, gasRate, AirDensity, WaterDensity, WaterViscosityCp, packingFactor);
      var diameter :- TowerDiameter(m, airM3h / 3600.0, flood.designVelocity);
      Ok((flood, diameter))
  }

  /** The liquid mass velocity is fixed by the loading: 20 m^3/(m^2*h) of water at 997 kg/m^3. */
  lemma LiquidRateFromLoading(waterM3h: real)
    requires waterM3h != 0.0
    ensures (waterM3h / (waterM3h / LiquidLoading)) * WaterDensity / 3600.0 == LiquidLoading * WaterDensity / 3600.0
  {
    var area := waterM3h / LiquidLoading;
    assert area * LiquidLoading == waterM3h;
    assert waterM3h / area == LiquidLoading;
  }

  /** `design_stripping_tower`. */
  function DesignStrippingTower(m: Math, catalog: PackingProperties.Catalog, application: string, waterM3h: real,
                                inlet: real, outlet: real, henry: real, airWaterRatio: real, packingId: Option<string>)
    : (r: Result<Design, TowerError>)
    ensures |catalog| == 0 ==> r == Err(NoPacking)
    ensures r.Ok? ==>
              var p := ChoosePacking(catalog, application, packingId);
              p.Some? && p.value.name.Some? && p.value.nominalSizeMm.Some?
              && var h := PackedSection(m, p.value, inlet, outlet, henry, airWaterRatio);
              h.Ok? && r.value.packingHeightM == h.value.designM && r.value.towerHeightM == h.value.totalM
              && r.value.ntu == h.value.ntu && r.value.htu == h.value.htu
              && r.value.packingFactor == p.value.packingFactorPerM
              && r.value.packingId == (if p.value.packingId.Some? then p.value.packingId else packingId)
    ensures r.Ok? ==> r.value.airFlowM3h == waterM3h * airWaterRatio && r.value.lambda == StrippingFactor(henry, airWaterRatio)
    ensures r.Ok? ==> inlet != 0.0 && r.value.removalPercent == (1.0 - outlet / inlet) * 100.0
    ensures r.Ok? ==> r.value.towerHeightM >= r.value.packingHeightM + MinDisengagementM
    ensures r.Ok? ==> MinHtu <= r.value.htu <= MaxHtu
  {
    var packing := ChoosePacking(catalog, application, packingId);
    if packing.None? then Err(NoPacking)
    else
      var p := packing.value;
      if p.name.None? || p.nominalSizeMm.None? then Err(MissingField)
      else
        var airFlow := waterM3h * airWaterRatio;
        var height :- PackedSection(m, p, inlet, outlet, henry, airWaterRatio);
        var hydraulics :- Hydraulics(m, waterM3h, airFlow, p.packingFactorPerM);
        // The transfer units already failed on a zero inlet, so the removal efficiency's
        // division cannot raise here.
        assert inlet != 0.0;
        Ok(Design(application, hydraulics.1.diameterM, height.totalM, height.designM,
                  if p.packingId.Some? then p.packingId else packingId,
                  p.name.value, p.nominalSizeMm.value, p.packingFactorPerM, p.surfaceAreaM2M3,
                  airFlow, waterM3h, airWaterRatio, height.ntu, height.htu, StrippingFactor(henry, airWaterRatio),
                  hydraulics.0.designVelocity, hydraulics.0.floodVelocity, hydraulics.0.flowParameter,
                  (1.0 - outlet / inlet) * 100.0))
  }
}
