/** The blower decision table and the bookkeeping around the compression-work formulas: which
    machine and thermodynamic model a compression ratio (or a user override) selects, and how
    the shaft power the formulas return becomes motor power, horsepower and gauge pressures.
    The compression work itself (isothermal, polytropic and adiabatic formulas with fractional
    powers and logarithms) is an oracle.
 */
module BlowerSizing {
  import opened Basics

  const AtmosphericPa: real := 101325.0
  const HorsepowerPerKw: real := 1.34102

  /** Upper compression ratios of the automatic bands (3 psig and 7 psig above atmosphere). */
  const CentrifugalMaxRatio: real := 1.2
  const RotaryLobeMaxRatio: real := 1.5

  datatype ThermoModel = Isothermal | Polytropic | Adiabatic

  /** What `select_blower_type` returns: the machine name, its model and default efficiency. */
  datatype Selection = Selection(blowerType: string, model: ThermoModel, defaultEfficiency: real)

  /** The efficiency every table entry attaches to a thermodynamic model. */
  function DefaultEfficiency(m: ThermoModel): real
  {
    match m
    case Isothermal => 0.70
    case Polytropic => 0.65
    case Adiabatic => 0.75
  }

  /** Ordering of the models by the pressure range they serve. */
  function Rank(m: ThermoModel): nat
  {
    match m
    case Isothermal => 0
    case Polytropic => 1
    case Adiabatic => 2
  }

  /** The four names an override may use, after the Roots alias is stripped. */
  const OverrideTable: Dict<string, ThermoModel> := [
    ("Multistage Centrifugal", Isothermal),
    ("Rotary Lobe", Polytropic),
    ("Single-Stage Compressor", Adiabatic),
    ("Positive Displacement", Polytropic)
  ]

  /** `name.replace(" (Roots)", "").replace(" (roots)", "")`. */
  function StripRoots(name: string): string
  {
    RemoveAll(RemoveAll(name, " (Roots)"), " (roots)")
  }

  /** An override that the table recognises: present, non-empty (Python truthiness) and a key
      once the alias is stripped. */
  predicate Recognised(userOverride: Option<string>)
  {
    userOverride.Some? && |userOverride.value| > 0 && StripRoots(userOverride.value) in KeySet(OverrideTable)
  }

  /** Automatic selection by compression ratio. */
  function AutoSelect(ratio: real): (s: Selection)
    ensures ratio <= CentrifugalMaxRatio ==> s == Selection("Multistage Centrifugal", Isothermal, 0.70)
    ensures CentrifugalMaxRatio < ratio <= RotaryLobeMaxRatio ==> s == Selection("Rotary Lobe (Roots)", Polytropic, 0.65)
    ensures RotaryLobeMaxRatio < ratio ==> s == Selection("Single-Stage Compressor", Adiabatic, 0.75)
  {
    if ratio <= CentrifugalMaxRatio then Selection("Multistage Centrifugal", Isothermal, DefaultEfficiency(Isothermal))
    else if ratio <= RotaryLobeMaxRatio then Selection("Rotary Lobe (Roots)", Polytropic, DefaultEfficiency(Polytropic))
    else Selection("Single-Stage Compressor", Adiabatic, DefaultEfficiency(Adiabatic))
  }

  /** `select_blower_type`: a recognised override picks the table's model and keeps the user's
      spelling as the name; anything else falls through to the automatic bands. */
  function SelectBlowerType(ratio: real, userOverride: Option<string>): (s: Selection)
    ensures Recognised(userOverride) ==>
              s.blowerType == userOverride.value && Get(OverrideTable, StripRoots(userOverride.value)) == Some(s.model)
    ensures !Recognised(userOverride) ==> s == AutoSelect(ratio)
    ensures s.defaultEfficiency == DefaultEfficiency(s.model)
  {
    if Recognised(userOverride) then
      var model := Get(OverrideTable, StripRoots(userOverride.value)).value;
      Selection(userOverride.value, model, DefaultEfficiency(model))
    else AutoSelect(ratio)
  }

  /** A higher compression ratio never selects a model meant for a lower pressure range. */
  lemma AutoSelectMonotone(r1: real, r2: real)
    requires r1 <= r2
    ensures Rank(AutoSelect(r1).model) <= Rank(AutoSelect(r2).model)
  {
  }

  /** An override whose stripped spelling is the i-th table key selects that key's model. */
  lemma OverrideByKey(ratio: real, name: string, i: nat)
    requires i < |OverrideTable| && |name| > 0 && StripRoots(name) == OverrideTable[i].0
    ensures SelectBlowerType(ratio, Some(name)) == Selection(name, OverrideTable[i].1, DefaultEfficiency(OverrideTable[i].1))
  {
    GetAt(OverrideTable, i);
  }

  /** Feeding an automatically chosen name back as the override reproduces the automatic choice,
      whatever ratio accompanies it: the alias " (Roots)" is what makes the middle band round-trip. */
  lemma AutoNameRoundTrip(ratio: real, other: real)
    ensures SelectBlowerType(other, Some(AutoSelect(ratio).blowerType)) == AutoSelect(ratio)
  {
    if ratio <= CentrifugalMaxRatio {
      NamedOverride(other, "Multistage Centrifugal", 0);
    } else if ratio <= RotaryLobeMaxRatio {
      assert AutoSelect(ratio).blowerType == OverrideTable[1].0 + " (Roots)";
      AliasedOverride(other, OverrideTable[1].0, 1);
    } else {
      NamedOverride(other, "Single-Stage Compressor", 2);
    }
  }

  lemma NamedOverride(ratio: real, name: string, i: nat)
    requires i < |OverrideTable| && name == OverrideTable[i].0 && '(' !in name
    ensures SelectBlowerType(ratio, Some(name)) == Selection(name, OverrideTable[i].1, DefaultEfficiency(OverrideTable[i].1))
  {
    NoMarkerUnchanged(name);
    OverrideByKey(ratio, name, i);
  }

  /** A table key followed by the alias suffix selects the same model as the bare key. */
  lemma AliasedOverride(ratio: real, key: string, i: nat)
    requires i < |OverrideTable| && key == OverrideTable[i].0 && '(' !in key
    ensures SelectBlowerType(ratio, Some(key + " (Roots)")) == Selection(key + " (Roots)", OverrideTable[i].1, DefaultEfficiency(OverrideTable[i].1))
  {
    StripRootsAlias(key);
    OverrideByKey(ratio, key + " (Roots)", i);
  }

  // ---------------------------------------------------------------------------
  // Power bookkeeping
  // ---------------------------------------------------------------------------

  /** What a compression-work formula returns: shaft power (kW), discharge temperature (deg C) and
      aftercooling duty (kW); the isothermal formula yields only the first. */
  datatype Work = Work(shaftKw: real, dischargeC: real, aftercoolingKw: real)

  /** The compression-work formulas: model, flow (m^3/s), inlet and discharge pressure (Pa),
      inlet temperature (K) and blower efficiency. */
  type CompressionWork = (ThermoModel, real, real, real, real, real) -> Work

  datatype BlowerSpec = BlowerSpec(
    blowerType: string, model: ThermoModel, compressionRatio: real,
    inletPa: real, inletPsig: real, dischargePa: real, dischargePsig: real,
    inletC: real, dischargeC: real, aftercoolingKw: real,
    shaftKw: real, motorKw: real, motorHp: real,
    blowerEfficiency: real, motorEfficiency: real)

  /** The two float divisions that raise: by the inlet pressure and by the motor efficiency. */
  datatype BlowerError = ZeroInletPressure | ZeroMotorEfficiency

  /** `override or default`: a missing or zero override falls back to the selection's default. */
  function ResolvedEfficiency(effOverride: Option<real>, s: Selection): (e: real)
    ensures effOverride.Some? && effOverride.value != 0.0 ==> e == effOverride.value
    ensures effOverride.None? || effOverride.value == 0.0 ==> e == s.defaultEfficiency
  {
    if effOverride.Some? && effOverride.value != 0.0 then effOverride.value else s.defaultEfficiency
  }

  /** Gauge pressure in psi. */
  function Psig(pa: real): (g: real)
    ensures g * PascalPerPsi + AtmosphericPa == pa
    ensures g > 0.0 <==> pa > AtmosphericPa
  {
    (pa - AtmosphericPa) / PascalPerPsi
  }

  /** `calculate_blower_power`: discharge pressure and ratio, selection, efficiency, the model's
      work formula, then motor power, horsepower and gauge pressures. */
  function BlowerPower(airFlowM3h: real, dropPa: real, inletPa: real, inletC: real, effOverride: Option<real>,
                       motorEfficiency: real, typeOverride: Option<string>, work: CompressionWork)
    : (r: Result<BlowerSpec, BlowerError>)
    ensures r.Err? <==> inletPa == 0.0 || motorEfficiency == 0.0
    ensures inletPa == 0.0 ==> r == Err(ZeroInletPressure)
    ensures r.Ok? ==>
              var b := r.value;
              b.inletPa == inletPa && b.dischargePa - inletPa == dropPa
              && b.compressionRatio * inletPa == b.dischargePa
              && var sel := SelectBlowerType(b.compressionRatio, typeOverride);
              b.blowerType == sel.blowerType && b.model == sel.model
              && b.blowerEfficiency == ResolvedEfficiency(effOverride, sel)
              && b.shaftKw == work(b.model, airFlowM3h / SecondsPerHour, inletPa, b.dischargePa, inletC + 273.15, b.blowerEfficiency).shaftKw
              && b.motorKw * motorEfficiency == b.shaftKw
              && b.motorHp == HorsepowerPerKw * b.motorKw
              && b.motorEfficiency == motorEfficiency && b.inletC == inletC
              && b.dischargePsig * PascalPerPsi + AtmosphericPa == b.dischargePa
              && b.inletPsig * PascalPerPsi + AtmosphericPa == inletPa
    ensures r.Ok? && r.value.model == Isothermal ==> r.value.dischargeC == inletC && r.value.aftercoolingKw == 0.0
    ensures r.Ok? && r.value.model == Polytropic ==> r.value.aftercoolingKw == 0.0
    ensures r.Ok? && r.value.model != Isothermal ==>
              r.value.dischargeC == work(r.value.model, airFlowM3h / SecondsPerHour, inletPa, r.value.dischargePa,
                                         inletC + 273.15, r.value.blowerEfficiency).dischargeC
    ensures r.Ok? && r.value.model == Adiabatic ==>
              r.value.aftercoolingKw == work(r.value.model, airFlowM3h / SecondsPerHour, inletPa, r.value.dischargePa,
                                             inletC + 273.15, r.value.blowerEfficiency).aftercoolingKw
  {
    if inletPa == 0.0 then Err(ZeroInletPressure)
    else
      var flowM3s := airFlowM3h / SecondsPerHour;
      var dischargePa := inletPa + dropPa;
      var ratio := dischargePa / inletPa;
      var sel := SelectBlowerType(ratio, typeOverride);
      var eff := ResolvedEfficiency(effOverride, sel);
      var w := work(sel.model, flowM3s, inletPa, dischargePa, inletC + 273.15, eff);
      var dischargeC := if sel.model == Isothermal then inletC else w.dischargeC;
      var aftercoolingKw := if sel.model == Adiabatic then w.aftercoolingKw else 0.0;
      if motorEfficiency == 0.0 then Err(ZeroMotorEfficiency)
      else
        var motorKw := w.shaftKw / motorEfficiency;
        Ok(BlowerSpec(sel.blowerType, sel.model, ratio, inletPa, Psig(inletPa), dischargePa, Psig(dischargePa),
                      inletC, dischargeC, aftercoolingKw, w.shaftKw, motorKw, motorKw * HorsepowerPerKw,
                      eff, motorEfficiency))
  }

  /** With a positive inlet pressure the blower compresses (ratio above 1) exactly when the system
      has a pressure drop to overcome. */
  lemma CompressionAboveOne(inletPa: real, dropPa: real)
    requires inletPa > 0.0
    ensures (inletPa + dropPa) / inletPa > 1.0 <==> dropPa > 0.0
  {
    var ratio := (inletPa + dropPa) / inletPa;
    assert ratio * inletPa == inletPa + dropPa;
    if ratio > 1.0 {
      assert ratio * inletPa > 1.0 * inletPa;
    }
    if dropPa > 0.0 {
      assert ratio * inletPa > inletPa;
    }
  }

  /** Without a type override the selected machine follows the drop as a fraction of the inlet
      pressure: up to 20 % a centrifugal blower, up to 50 % a rotary lobe, beyond that a compressor. */
  lemma SelectionByDrop(airFlowM3h: real, dropPa: real, inletPa: real, inletC: real, effOverride: Option<real>,
                        motorEfficiency: real, work: CompressionWork)
    requires inletPa > 0.0 && motorEfficiency != 0.0
    ensures var b := BlowerPower(airFlowM3h, dropPa, inletPa, inletC, effOverride, motorEfficiency, None, work).value;
            (dropPa <= 0.2 * inletPa ==> b.model == Isothermal)
            && (0.2 * inletPa < dropPa <= 0.5 * inletPa ==> b.model == Polytropic)
            && (0.5 * inletPa < dropPa ==> b.model == Adiabatic)
  {
    var ratio := (inletPa + dropPa) / inletPa;
    assert ratio * inletPa == inletPa + dropPa;
    RatioBand(ratio, inletPa, dropPa, 1.2);
    RatioBand(ratio, inletPa, dropPa, 1.5);
  }

  lemma RatioBand(ratio: real, inletPa: real, dropPa: real, bound: real)
    requires inletPa > 0.0 && ratio * inletPa == inletPa + dropPa
    ensures ratio <= bound <==> dropPa <= (bound - 1.0) * inletPa
  {
    if ratio <= bound {
      assert ratio * inletPa <= bound * inletPa;
    } else {
      assert ratio * inletPa > bound * inletPa;
    }
  }

  /** A pattern containing a character the text lacks does not occur in it. */
  lemma {:induction false} AbsentCharNotContained(s: string, pat: string, k: nat)
    requires k < |pat| && pat[k] !in s
    ensures !Contains(s, pat)
    decreases |s|
  {
    if |pat| <= |s| {
      assert s[..|pat|][k] == s[k];
    }
    if |s| > 0 {
      AbsentCharNotContained(s[1..], pat, k);
    }
  }

  /** A name without a parenthesis passes through the alias stripping untouched. */
  lemma NoMarkerUnchanged(name: string)
    requires '(' !in name
    ensures StripRoots(name) == name
  {
    assert " (Roots)"[1] == '(';
    assert " (roots)"[1] == '(';
    AbsentCharNotContained(name, " (Roots)", 1);
    AbsentCharNotContained(name, " (roots)", 1);
  }

  /** Removing a pattern from `a + pat` leaves `a` when the pattern holds a character that occurs
      once in it and nowhere in `a`: no occurrence can start inside `a`. */
  lemma {:induction false} RemoveTrailingPattern(a: string, pat: string, k: nat)
    requires k < |pat| && pat[k] !in a
    requires forall j :: 0 <= j < |pat| && pat[j] == pat[k] ==> j == k
    ensures RemoveAll(a + pat, pat) == a
    decreases |a|
  {
    var s := a + pat;
    if |a| == 0 {
      assert s == pat && s[|pat|..] == [];
    } else {
      assert s[..|pat|][k] != pat[k] by {
        if k < |a| {
          assert s[k] == a[k];
        } else {
          assert s[k] == pat[k - |a|];
        }
      }
      assert s[1..] == a[1..] + pat;
      RemoveTrailingPattern(a[1..], pat, k);
      assert [a[0]] + a[1..] == a;
    }
  }

  /** The alias suffix comes off a parenthesis-free name, leaving the name. */
  lemma StripRootsAlias(name: string)
    requires '(' !in name
    ensures StripRoots(name + " (Roots)") == name
  {
    var pat := " (Roots)";
    assert pat[1] == '(';
    assert forall j :: 0 <= j < |pat| && pat[j] == pat[1] ==> j == 1;
    RemoveTrailingPattern(name, pat, 1);
    AbsentCharNotContained(name, " (roots)", 1);
  }
}
