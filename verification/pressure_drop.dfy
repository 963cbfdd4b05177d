/** System pressure drop for blower sizing: the packed-bed drop (from the Robbins correlation,
    or a fixed 0.5 inch of water per foot of packing when that correlation is unavailable), six
    accessory losses, and a safety margin on their sum. The correlation itself is a parameter;
    pi is the double-precision constant `Basics.Pi`.
 */
module PressureDrop {
  import opened Basics

  const PascalPerInchWater: real := 249.089
  const MetresPerFoot: real := 0.3048
  const Gravity: real := 9.81

  /** Bed drop assumed without the correlation: 0.5 inch of water per foot, in Pa/m. */
  const FallbackPaPerMetre: real := 0.5 * PascalPerInchWater / MetresPerFoot

  /** The Robbins correlation as a library call: liquid and gas mass velocities, liquid and gas
      densities, liquid viscosity (Pa*s), bed height and dry packing factor (1/ft) to a total
      bed drop in Pa. */
  type Robbins = (real, real, real, real, real, real, real) -> real

  datatype BedDrop = BedDrop(gasLoading: real, liquidLoading: real, dryPaPerM: real, wetPaPerM: real,
                             totalPaPerM: real, totalPa: real)

  datatype PressureDropError =
    | ZeroPackingHeight    // per-metre value divides by the bed height when the correlation ran
    | ZeroTowerArea        // mass velocities divide by the cross-section

  /** `calculate_robbins_pressure_drop`: `correlation` is None when the library cannot be
      imported, which selects the fixed fallback estimate. */
  function BedPressureDrop(heightM: real, gasMassVelocity: real, liquidMassVelocity: real, packingFactorPerM: real,
                           gasDensity: real, liquidDensity: real, liquidViscosityCp: real,
                           correlation: Option<Robbins>): (r: Result<BedDrop, PressureDropError>)
    ensures r.Err? <==> correlation.Some? && heightM == 0.0
    ensures r.Ok? ==> r.value.totalPaPerM * heightM == r.value.totalPa
    ensures r.Ok? ==> r.value.dryPaPerM + r.value.wetPaPerM == r.value.totalPaPerM
    ensures r.Ok? ==> r.value.gasLoading == 0.0 && r.value.liquidLoading == 0.0
    ensures correlation.Some? && r.Ok? ==>
              r.value.totalPa == correlation.value(liquidMassVelocity, gasMassVelocity, liquidDensity, gasDensity,
                                                   liquidViscosityCp * 0.001, heightM, packingFactorPerM * MetresPerFoot)
              && r.value.wetPaPerM == 0.1 * r.value.totalPaPerM
    ensures correlation.None? ==> r.value.totalPaPerM == FallbackPaPerMetre && r.value.wetPaPerM == 0.0
  {
    match correlation
    case Some(robbins) =>
      var totalPa := robbins(liquidMassVelocity, gasMassVelocity, liquidDensity, gasDensity,
                             liquidViscosityCp * 0.001, heightM, packingFactorPerM * MetresPerFoot);
      if heightM == 0.0 then Err(ZeroPackingHeight)
      else
        var perM := totalPa / heightM;
        Ok(BedDrop(0.0, 0.0, perM * 0.9, perM * 0.1, perM, totalPa))
    case None =>
      Ok(BedDrop(0.0, 0.0, FallbackPaPerMetre, 0.0, FallbackPaPerMetre, FallbackPaPerMetre * heightM))
  }

  /** The six losses outside the packed bed, in Pa. */
  datatype Accessories = Accessories(inletDistributor: real, outletDistributor: real, demister: real,
                                     momentum: real, ductworkSilencer: real, elevationHead: real)

  /** Design allowances for the accessories (defaults 1.0, 1.0 and 1.5 inch of water, 10 % of the
      bed drop for ductwork and silencers) and the safety margin (default 12 %). */
  datatype Allowances = Allowances(inletDistributorInches: real, outletDistributorInches: real,
                                   demisterInches: real, ductworkFraction: real, safetyFactor: real)

  const DefaultAllowances: Allowances := Allowances(1.0, 1.0, 1.5, 0.10, 0.12)

  function AccessoryTotal(a: Accessories): real
  {
    a.inletDistributor + a.outletDistributor + a.demister + a.momentum + a.ductworkSilencer + a.elevationHead
  }

  /** `calculate_accessory_pressure_drops`. */
  function AccessoryDrops(towerHeightM: real, gasVelocity: real, bedDropPa: real, gasDensity: real, w: Allowances)
    : (a: Accessories)
    ensures a.inletDistributor / PascalPerInchWater == w.inletDistributorInches
    ensures a.outletDistributor / PascalPerInchWater == w.outletDistributorInches
    ensures a.demister / PascalPerInchWater == w.demisterInches
    ensures a.momentum == gasDensity * gasVelocity * gasVelocity
    ensures a.ductworkSilencer == w.ductworkFraction * bedDropPa
    ensures a.elevationHead == gasDensity * Gravity * towerHeightM
  {
    var dynamicPa := 0.5 * gasDensity * (gasVelocity * gasVelocity);
    Accessories(w.inletDistributorInches * PascalPerInchWater, w.outletDistributorInches * PascalPerInchWater,
                w.demisterInches * PascalPerInchWater, 2.0 * dynamicPa, w.ductworkFraction * bedDropPa,
                gasDensity * Gravity * towerHeightM)
  }

  /** With non-negative inputs no accessory is a pressure gain. */
  lemma AccessoriesNonNegative(towerHeightM: real, gasVelocity: real, bedDropPa: real, gasDensity: real, w: Allowances)
    requires towerHeightM >= 0.0 && bedDropPa >= 0.0 && gasDensity >= 0.0
    requires w.inletDistributorInches >= 0.0 && w.outletDistributorInches >= 0.0 && w.demisterInches >= 0.0
    requires w.ductworkFraction >= 0.0
    ensures var a := AccessoryDrops(towerHeightM, gasVelocity, bedDropPa, gasDensity, w);
            a.inletDistributor >= 0.0 && a.outletDistributor >= 0.0 && a.demister >= 0.0 && a.momentum >= 0.0
            && a.ductworkSilencer >= 0.0 && a.elevationHead >= 0.0 && AccessoryTotal(a) >= 0.0
  {
    var a := AccessoryDrops(towerHeightM, gasVelocity, bedDropPa, gasDensity, w);
    assert gasVelocity * gasVelocity >= 0.0;
    assert a.momentum == gasDensity * (gasVelocity * gasVelocity);
    assert a.elevationHead == (gasDensity * Gravity) * towerHeightM;
  }

  /** Superficial gas velocity and the mass velocities through a tower of area `areaM2`. */
  datatype Velocities = Velocities(gasMass: real, liquidMass: real, gas: real)

  /** Tower cross-section `pi (d/2)^2`. */
  function TowerArea(diameterM: real): (a: real)
    ensures a >= 0.0
    ensures diameterM == 0.0 ==> a == 0.0
    ensures 4.0 * a == Pi * (diameterM * diameterM)
  {
    var half := diameterM / 2.0;
    assert half * half >= 0.0;
    assert diameterM * diameterM == (2.0 * half) * (2.0 * half) == 4.0 * (half * half);
    Pi * (half * half)
  }

  function FlowVelocities(gasM3h: real, liquidM3h: real, gasDensity: real, liquidDensity: real, areaM2: real): (v: Velocities)
    requires areaM2 != 0.0
    ensures v.gas * areaM2 == gasM3h / SecondsPerHour
    ensures v.gasMass == v.gas * gasDensity
    ensures v.liquidMass * areaM2 == liquidM3h / SecondsPerHour * liquidDensity
  {
    Velocities((gasM3h / SecondsPerHour) * gasDensity / areaM2, (liquidM3h / SecondsPerHour) * liquidDensity / areaM2,
               (gasM3h / SecondsPerHour) / areaM2)
  }

  datatype SystemDrop = SystemDrop(
    gasLoading: real, liquidLoading: real, bedPa: real, accessories: Accessories,
    safetyPa: real, safetyFraction: real, totalPa: real, totalInchesWater: real, totalPsig: real)

  /** The breakdown as reported: bed, six accessories and safety margin. */
  function BreakdownSum(s: SystemDrop): real
  {
    s.bedPa + AccessoryTotal(s.accessories) + s.safetyPa
  }

  /** `calculate_total_system_pressure_drop`. */
  function TotalSystemDrop(packingHeightM: real, towerHeightM: real, diameterM: real, gasM3h: real, liquidM3h: real,
                           packingFactorPerM: real, gasDensity: real, liquidDensity: real, liquidViscosityCp: real,
                           w: Allowances, correlation: Option<Robbins>): (r: Result<SystemDrop, PressureDropError>)
    ensures diameterM == 0.0 ==> r == Err(ZeroTowerArea)
    ensures r.Ok? ==>
              var area := TowerArea(diameterM);
              area != 0.0
              && var v := FlowVelocities(gasM3h, liquidM3h, gasDensity, liquidDensity, area);
              var bed := BedPressureDrop(packingHeightM, v.gasMass, v.liquidMass, packingFactorPerM, gasDensity,
                                         liquidDensity, liquidViscosityCp, correlation);
              bed.Ok? && r.value.bedPa == bed.value.totalPa
              && r.value.accessories == AccessoryDrops(towerHeightM, v.gas, bed.value.totalPa, gasDensity, w)
    ensures r.Ok? ==> r.value.totalPa == (1.0 + w.safetyFactor) * (r.value.bedPa + AccessoryTotal(r.value.accessories))
    ensures r.Ok? ==> r.value.safetyPa == w.safetyFactor * (r.value.bedPa + AccessoryTotal(r.value.accessories))
    ensures r.Ok? ==> r.value.safetyFraction == w.safetyFactor
    ensures r.Ok? ==> r.value.totalInchesWater * PascalPerInchWater == r.value.totalPa
    ensures r.Ok? ==> r.value.totalPsig * PascalPerPsi == r.value.totalPa
    ensures r.Err? <==> TowerArea(diameterM) == 0.0 || (correlation.Some? && packingHeightM == 0.0)
  {
    var area := TowerArea(diameterM);
    if area == 0.0 then Err(ZeroTowerArea)
    else
      var v := FlowVelocities(gasM3h, liquidM3h, gasDensity, liquidDensity, area);
      var bed :- BedPressureDrop(packingHeightM, v.gasMass, v.liquidMass, packingFactorPerM, gasDensity,
                                 liquidDensity, liquidViscosityCp, correlation);
      var acc := AccessoryDrops(towerHeightM, v.gas, bed.totalPa, gasDensity, w);
      var before := bed.totalPa + acc.inletDistributor + acc.outletDistributor + acc.demister
                    + acc.momentum + acc.ductworkSilencer + acc.elevationHead;
      var safetyPa := w.safetyFactor * before;
      var total := before + safetyPa;
      Ok(SystemDrop(bed.gasLoading, bed.liquidLoading, bed.totalPa, acc, safetyPa, w.safetyFactor, total,
                    total / PascalPerInchWater, total / PascalPerPsi))
  }

  /** The reported breakdown adds up to the reported total, and the margin is never negative
      when the factor and the drops are not. */
  lemma BreakdownAddsUp(packingHeightM: real, towerHeightM: real, diameterM: real, gasM3h: real, liquidM3h: real,
                        packingFactorPerM: real, gasDensity: real, liquidDensity: real, liquidViscosityCp: real,
                        w: Allowances, correlation: Option<Robbins>)
    ensures var r := TotalSystemDrop(packingHeightM, towerHeightM, diameterM, gasM3h, liquidM3h, packingFactorPerM,
                                     gasDensity, liquidDensity, liquidViscosityCp, w, correlation);
            r.Ok? ==> BreakdownSum(r.value) == r.value.totalPa
                      && (w.safetyFactor >= 0.0 && r.value.bedPa + AccessoryTotal(r.value.accessories) >= 0.0 ==>
                            r.value.totalPa >= r.value.bedPa + AccessoryTotal(r.value.accessories))
  {
    var r := TotalSystemDrop(packingHeightM, towerHeightM, diameterM, gasM3h, liquidM3h, packingFactorPerM,
                             gasDensity, liquidDensity, liquidViscosityCp, w, correlation);
    if r.Ok? {
      var before := r.value.bedPa + AccessoryTotal(r.value.accessories);
      if w.safetyFactor >= 0.0 && before >= 0.0 {
        assert w.safetyFactor * before >= 0.0;
      }
    }
  }
}
