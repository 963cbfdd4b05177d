/** Feed-water chemistry: validation of a decoded JSON ion dictionary, the charge-balance
    diagnostic, the conversion of ion names to PHREEQC element keywords, the background-water
    templates, and the assembly of all four into one record.

    JSON text decoding itself is a parameter (`decode`), returning None where the decoder
    would raise.
 */
module WaterChemistry {
  import opened Basics

  type PosReal = x: real | x > 0.0 witness 1.0

  /** A decoded JSON value. */
  datatype Json =
    | JNull
    | JBool(b: bool)
    | JNumber(n: real)
    | JString(s: string)
    | JArray(items: seq<Json>)
    | JObject(members: Dict<string, Json>)

  datatype ChemistryError =
    | InvalidJson
    | NotAnObject
    | NonNumeric(ion: string)
    | NegativeConcentration(ion: string)
    | EmptyChemistry
    | UnsupportedUnits
    | UnknownTemplate(template: string)

  /** Ion concentrations, mg/L, in insertion order. */
  type IonDict = Dict<string, real>

  predicate NonNegative(ions: IonDict)
  {
    forall i :: 0 <= i < |ions| ==> ions[i].1 >= 0.0
  }

  // ---------------------------------------------------------------------------
  // Parsing
  // ---------------------------------------------------------------------------

  /** `isinstance(value, (int, float))` then `float(value)`: a boolean is an int in Python. */
  function NumericValue(v: Json): (r: Option<real>)
    ensures r.Some? <==> v.JNumber? || v.JBool?
    ensures v.JNumber? ==> r == Some(v.n)
    ensures v.JBool? ==> r == Some(if v.b then 1.0 else 0.0)
  {
    match v
    case JNumber(n) => Some(n)
    case JBool(b) => Some(if b then 1.0 else 0.0)
    case _ => None
  }

  predicate Acceptable(v: Json)
  {
    NumericValue(v).Some? && NumericValue(v).value >= 0.0
  }

  /** The error an unacceptable entry raises. */
  function Rejection(ion: string, v: Json): ChemistryError
  {
    if NumericValue(v).None? then NonNumeric(ion) else NegativeConcentration(ion)
  }

  /** `float(value)` of an accepted value. */
  function FloatOf(v: Json): real
  {
    if NumericValue(v).Some? then NumericValue(v).value else 0.0
  }

  /** Each entry paired with its float value, in object order. */
  function Stored(entries: Dict<string, Json>): (pairs: IonDict)
    ensures |pairs| == |entries|
    ensures forall i :: 0 <= i < |entries| ==> pairs[i] == (entries[i].0, FloatOf(entries[i].1))
  {
    seq(|entries|, i requires 0 <= i < |entries| => (entries[i].0, FloatOf(entries[i].1)))
  }

  /** The validation loop over the object's entries, in order: the first unacceptable entry
      raises; every accepted entry is stored as a float. */
  function ValidateEntries(entries: Dict<string, Json>): (r: Result<IonDict, ChemistryError>)
    ensures r.Ok? <==> forall i :: 0 <= i < |entries| ==> Acceptable(entries[i].1)
    decreases |entries|
  {
    if |entries| == 0 then Ok([])
    else
      var n := |entries| - 1;
      assert forall i :: 0 <= i < n ==> entries[i] == entries[..n][i];
      var done :- ValidateEntries(entries[..n]);
      var (ion, v) := entries[n];
      if Acceptable(v) then Ok(Put(done, ion, FloatOf(v))) else Err(Rejection(ion, v))
  }

  /** An accepted object's prefix was accepted too, and the last entry was stored on top of it. */
  lemma ValidatedStep(entries: Dict<string, Json>)
    requires |entries| > 0 && ValidateEntries(entries).Ok?
    ensures var n := |entries| - 1;
            && ValidateEntries(entries[..n]).Ok?
            && ValidateEntries(entries).value == Put(ValidateEntries(entries[..n]).value, entries[n].0, FloatOf(entries[n].1))
  {
    var n := |entries| - 1;
    assert forall i :: 0 <= i < n ==> entries[i] == entries[..n][i];
  }

  /** The loop's result is the assignment of every entry's float value, in order. */
  lemma {:induction false} ValidatedAssignsAll(entries: Dict<string, Json>)
    requires ValidateEntries(entries).Ok?
    ensures ValidateEntries(entries).value == FromPairs(Stored(entries))
  {
    if |entries| > 0 {
      var n := |entries| - 1;
      ValidatedStep(entries);
      ValidatedAssignsAll(entries[..n]);
      assert Stored(entries)[..n] == Stored(entries[..n]);
    }
  }

  /** The validated dictionary has the object's keys and no negative concentration. */
  lemma ValidatedShape(entries: Dict<string, Json>)
    requires ValidateEntries(entries).Ok?
    ensures KeySet(ValidateEntries(entries).value) == KeySet(entries)
    ensures NonNegative(ValidateEntries(entries).value)
  {
    var pairs := Stored(entries);
    ValidatedAssignsAll(entries);
    FromPairsKeys(pairs);
    FromPairsEntries(pairs);
    assert KeySet(pairs) == KeySet(entries) by {
      forall k | k in KeySet(entries) ensures k in KeySet(pairs) {
        var i :| 0 <= i < |entries| && entries[i].0 == k;
        assert pairs[i].0 == k;
      }
    }
    forall e | e in pairs ensures e.1 >= 0.0 {
      var i :| 0 <= i < |pairs| && pairs[i] == e;
      assert Acceptable(entries[i].1);
    }
  }

  /** On an object without repeated keys, validation keeps every entry in place. */
  lemma ValidateEntriesKeepsOrder(entries: Dict<string, Json>)
    requires UniqueKeys(entries) && ValidateEntries(entries).Ok?
    ensures ValidateEntries(entries).value == Stored(entries)
  {
    ValidatedAssignsAll(entries);
    var pairs := Stored(entries);
    assert UniqueKeys(pairs) by {
      forall i, j | 0 <= i < j < |pairs| ensures pairs[i].0 != pairs[j].0 {
        assert pairs[i].0 == entries[i].0 && pairs[j].0 == entries[j].0;
      }
    }
    FromPairsUnique(pairs);
  }

  /** The first unacceptable entry names the error; every entry before it was acceptable. */
  lemma {:induction false} ValidateEntriesRejectsFirst(entries: Dict<string, Json>) returns (i: nat)
    requires ValidateEntries(entries).Err?
    ensures i < |entries| && ValidateEntries(entries).error == Rejection(entries[i].0, entries[i].1)
    ensures !Acceptable(entries[i].1) && forall j :: 0 <= j < i ==> Acceptable(entries[j].1)
  {
    var n := |entries| - 1;
    var prefix := entries[..n];
    assert forall j :: 0 <= j < n ==> entries[j] == prefix[j];
    if ValidateEntries(prefix).Err? {
      i := ValidateEntriesRejectsFirst(prefix);
    } else {
      i := n;
    }
  }

  /** `parse_water_chemistry_json` after decoding: not JSON, not an object, a bad entry, or an
      empty result each raise; otherwise the entries as floats. */
  function ParseChemistry(decoded: Option<Json>): (r: Result<IonDict, ChemistryError>)
    ensures decoded.None? ==> r == Err(InvalidJson)
    ensures decoded.Some? && !decoded.value.JObject? ==> r == Err(NotAnObject)
    ensures decoded == Some(JObject([])) ==> r == Err(EmptyChemistry)
    ensures r.Ok? <==> decoded.Some? && decoded.value.JObject? && |decoded.value.members| > 0
                       && forall i :: 0 <= i < |decoded.value.members| ==> Acceptable(decoded.value.members[i].1)
    ensures r.Ok? ==> KeySet(r.value) == KeySet(decoded.value.members) && NonNegative(r.value) && |r.value| > 0
  {
    match decoded
    case None => Err(InvalidJson)
    case Some(JObject(members)) =>
      var validated :- ValidateEntries(members);
      ValidatedShape(members);
      if |validated| == 0 then
        assert |members| > 0 ==> members[0].0 in KeySet(members);
        Err(EmptyChemistry)
      else
        assert validated[0].0 in KeySet(validated);
        Ok(validated)
    case Some(_) => Err(NotAnObject)
  }

  // ---------------------------------------------------------------------------
  // Charge balance
  // ---------------------------------------------------------------------------

  datatype Ion = Ion(charge: int, mw: PosReal)

  /** Charge and molecular weight (g/mol) of every recognised ion; None for any other name. */
  function IonProperties(ion: string): Option<Ion>
  {
    match ion
    case "Na+" => Some(Ion(1, 22.99))
    case "Ca2+" => Some(Ion(2, 40.08))
    case "Mg2+" => Some(Ion(2, 24.31))
    case "K+" => Some(Ion(1, 39.10))
    case "Fe2+" => Some(Ion(2, 55.85))
    case "Fe3+" => Some(Ion(3, 55.85))
    case "Mn2+" => Some(Ion(2, 54.94))
    case "Ba2+" => Some(Ion(2, 137.33))
    case "Sr2+" => Some(Ion(2, 87.62))
    case "NH4+" => Some(Ion(1, 18.04))
    case "H+" => Some(Ion(1, 1.01))
    case "Cl-" => Some(Ion(-1, 35.45))
    case "SO4-2" => Some(Ion(-2, 96.06))
    case "HCO3-" => Some(Ion(-1, 61.02))
    case "CO3-2" => Some(Ion(-2, 60.01))
    case "NO3-" => Some(Ion(-1, 62.00))
    case "F-" => Some(Ion(-1, 19.00))
    case "PO4-3" => Some(Ion(-3, 94.97))
    case "SiO3-2" => Some(Ion(-2, 76.08))
    case "Br-" => Some(Ion(-1, 79.90))
    case "B(OH)4-" => Some(Ion(-1, 78.84))
    case "OH-" => Some(Ion(-1, 17.01))
    case _ => None
  }

  /** Milliequivalents per litre of one ion at `conc` mg/L. */
  function Meq(conc: real, ion: Ion): real
  {
    conc / ion.mw * (if ion.charge < 0 then -ion.charge else ion.charge) as real
  }

  lemma MeqNonNegative(conc: real, ion: Ion)
    requires conc >= 0.0
    ensures Meq(conc, ion) >= 0.0
  {
    var q := conc / ion.mw;
    assert q >= 0.0;
  }

  /** What one entry adds to the cation and anion sums; ions outside the table add nothing. */
  function CationPart(ion: string, conc: real): real
  {
    match IonProperties(ion)
    case Some(p) => if p.charge > 0 then Meq(conc, p) else 0.0
    case None => 0.0
  }

  function AnionPart(ion: string, conc: real): real
  {
    match IonProperties(ion)
    case Some(p) => if p.charge > 0 then 0.0 else Meq(conc, p)
    case None => 0.0
  }

  /** The accumulated sums over the entries, in iteration order. */
  function CationMeq(ions: IonDict): real
  {
    if |ions| == 0 then 0.0
    else CationMeq(ions[..|ions| - 1]) + CationPart(ions[|ions| - 1].0, ions[|ions| - 1].1)
  }

  function AnionMeq(ions: IonDict): real
  {
    if |ions| == 0 then 0.0
    else AnionMeq(ions[..|ions| - 1]) + AnionPart(ions[|ions| - 1].0, ions[|ions| - 1].1)
  }

  /** `calculate_charge_balance`: the cation excess as a percentage of all milliequivalents,
      0 when nothing recognised is present. */
  function ChargeBalance(ions: IonDict): (r: real)
    ensures CationMeq(ions) + AnionMeq(ions) == 0.0 ==> r == 0.0
    ensures CationMeq(ions) + AnionMeq(ions) != 0.0 ==>
              r * (CationMeq(ions) + AnionMeq(ions)) == (CationMeq(ions) - AnionMeq(ions)) * 100.0
  {
    var cation := CationMeq(ions);
    var anion := AnionMeq(ions);
    var total := cation + anion;
    if total == 0.0 then 0.0
    else
      DivideThenScale(cation - anion, total, 100.0);
      (cation - anion) / total * 100.0
  }

  lemma DivideThenScale(a: real, t: real, c: real)
    requires t != 0.0
    ensures (a / t * c) * t == a * c
  {
    var q := a / t;
    assert q * t == a;
    assert (q * c) * t == (q * t) * c;
  }

  lemma {:induction false} SumsNonNegative(ions: IonDict)
    requires NonNegative(ions)
    ensures CationMeq(ions) >= 0.0 && AnionMeq(ions) >= 0.0
  {
    if |ions| > 0 {
      var n := |ions| - 1;
      assert NonNegative(ions[..n]) by {
        forall i | 0 <= i < n ensures ions[..n][i].1 >= 0.0 {
          assert ions[..n][i] == ions[i];
        }
      }
      SumsNonNegative(ions[..n]);
      match IonProperties(ions[n].0)
      case Some(p) => MeqNonNegative(ions[n].1, p);
      case None =>
    }
  }

  /** For an analysis without negative concentrations, the balance lies in [-100, 100], and its
      sign says which side carries more charge. */
  lemma ChargeBalanceBounded(ions: IonDict)
    requires NonNegative(ions)
    ensures -100.0 <= ChargeBalance(ions) <= 100.0
    ensures ChargeBalance(ions) > 0.0 <==> CationMeq(ions) > AnionMeq(ions)
    ensures ChargeBalance(ions) < 0.0 <==> CationMeq(ions) < AnionMeq(ions)
  {
    SumsNonNegative(ions);
    var c := CationMeq(ions);
    var a := AnionMeq(ions);
    if c + a != 0.0 {
      RatioBounds(c, a);
    }
  }

  lemma RatioBounds(c: real, a: real)
    requires c >= 0.0 && a >= 0.0 && c + a != 0.0
    ensures -100.0 <= (c - a) / (c + a) * 100.0 <= 100.0
    ensures (c - a) / (c + a) * 100.0 > 0.0 <==> c > a
    ensures (c - a) / (c + a) * 100.0 < 0.0 <==> c < a
  {
    var t := c + a;
    var f := (c - a) / t;
    assert f * t == c - a;
    assert (f + 1.0) * t == f * t + t;
    assert (1.0 - f) * t == t - f * t;
    ProductSign(f, t);
    assert (1.0 - f) * t == 2.0 * a;
    assert (f + 1.0) * t == 2.0 * c;
    FactorNonNegative(1.0 - f, t);
    FactorNonNegative(f + 1.0, t);
    assert (c - a) / (c + a) * 100.0 == f * 100.0;
  }

  lemma ProductSign(x: real, t: real)
    requires t > 0.0
    ensures x < 0.0 ==> x * t < 0.0
    ensures x > 0.0 ==> x * t > 0.0
    ensures x == 0.0 ==> x * t == 0.0
  {
  }

  /** An ion the table does not know leaves the balance untouched. */
  lemma UnknownIonIgnored(ions: IonDict, ion: string, conc: real)
    requires IonProperties(ion).None?
    ensures CationMeq(ions + [(ion, conc)]) == CationMeq(ions)
    ensures AnionMeq(ions + [(ion, conc)]) == AnionMeq(ions)
    ensures ChargeBalance(ions + [(ion, conc)]) == ChargeBalance(ions)
  {
    assert (ions + [(ion, conc)])[..|ions|] == ions;
  }

  // ---------------------------------------------------------------------------
  // PHREEQC solution
  // ---------------------------------------------------------------------------

  /** The element keyword an ion is reported under, and ion weight / element weight. */
  datatype Mapping = Mapping(keyword: string, factor: PosReal)

  /** The element each recognised ion name is reported as; None for any other name. */
  function ElementMapping(ion: string): Option<Mapping>
  {
    match ion
    case "Na+" => Some(Mapping("Na", 1.0))
    case "Ca2+" => Some(Mapping("Ca", 1.0))
    case "Ca+2" => Some(Mapping("Ca", 1.0))
    case "Mg2+" => Some(Mapping("Mg", 1.0))
    case "Mg+2" => Some(Mapping("Mg", 1.0))
    case "K+" => Some(Mapping("K", 1.0))
    case "Fe2+" => Some(Mapping("Fe(2)", 1.0))
    case "Fe3+" => Some(Mapping("Fe(3)", 1.0))
    case "Mn2+" => Some(Mapping("Mn", 1.0))
    case "Ba2+" => Some(Mapping("Ba", 1.0))
    case "Sr2+" => Some(Mapping("Sr", 1.0))
    case "NH4+" => Some(Mapping("N(-3)", 18.04 / 14.01))
    case "Cl-" => Some(Mapping("Cl", 1.0))
    case "SO4-2" => Some(Mapping("S(6)", 96.06 / 32.07))
    case "SO4^2-" => Some(Mapping("S(6)", 96.06 / 32.07))
    case "HCO3-" => Some(Mapping("Alkalinity", 1.0))
    case "CO3-2" => Some(Mapping("C(4)", 60.01 / 12.01))
    case "CO3^2-" => Some(Mapping("C(4)", 60.01 / 12.01))
    case "NO3-" => Some(Mapping("N(5)", 62.00 / 14.01))
    case "F-" => Some(Mapping("F", 1.0))
    case "PO4-3" => Some(Mapping("P", 94.97 / 30.97))
    case "Br-" => Some(Mapping("Br", 1.0))
    case "B(OH)4-" => Some(Mapping("B", 78.84 / 10.81))
    case "SiO2" => Some(Mapping("Si", 60.08 / 28.09))
    case "SiO3-2" => Some(Mapping("Si", 76.08 / 28.09))
    case "H4SiO4" => Some(Mapping("Si", 96.11 / 28.09))
    case "Na" => Some(Mapping("Na", 1.0))
    case "Ca" => Some(Mapping("Ca", 1.0))
    case "Mg" => Some(Mapping("Mg", 1.0))
    case "K" => Some(Mapping("K", 1.0))
    case "Cl" => Some(Mapping("Cl", 1.0))
    case "SO4" => Some(Mapping("S(6)", 96.06 / 32.07))
    case "HCO3" => Some(Mapping("Alkalinity", 1.0))
    case "F" => Some(Mapping("F", 1.0))
    case _ => None
  }

  /** The key an ion is written under, and the concentration written there. */
  function SolutionKey(ion: string): string
  {
    match ElementMapping(ion)
    case Some(m) => m.keyword
    case None => ion
  }

  function SolutionValue(ion: string, conc: real): real
  {
    match ElementMapping(ion)
    case Some(m) => conc / m.factor
    case None => conc
  }

  /** Each entry under its element keyword, on the element basis, in entry order. */
  function Converted(ions: IonDict): (pairs: IonDict)
    ensures |pairs| == |ions|
    ensures forall i :: 0 <= i < |ions| ==> pairs[i] == (SolutionKey(ions[i].0), SolutionValue(ions[i].0, ions[i].1))
  {
    seq(|ions|, i requires 0 <= i < |ions| => (SolutionKey(ions[i].0), SolutionValue(ions[i].0, ions[i].1)))
  }

  lemma ConvertedSnoc(ions: IonDict, ion: string, conc: real)
    ensures Converted(ions + [(ion, conc)]) == Converted(ions) + [(SolutionKey(ion), SolutionValue(ion, conc))]
  {
  }

  /** The conversion loop: each entry in turn stores its converted value under its key, so a
      later entry for the same keyword overwrites an earlier one. */
  function PhreeqcSolution(ions: IonDict): IonDict
  {
    FromPairs(Converted(ions))
  }

  /** `build_phreeqc_solution`: any spelling of mg/L is accepted, anything else raises; the keys
      written are exactly the keywords of the supplied ions. */
  function BuildSolution(ions: IonDict, units: string): (r: Result<IonDict, ChemistryError>)
    ensures r.Err? <==> Lower(units) != "mg/l"
    ensures r.Err? ==> r.error == UnsupportedUnits
    ensures r.Ok? ==> KeySet(r.value) == KeySet(Converted(ions))
  {
    if Lower(units) != "mg/l" then Err(UnsupportedUnits)
    else
      FromPairsKeys(Converted(ions));
      Ok(PhreeqcSolution(ions))
  }

  /** One more entry stores its converted value on top of the solution so far. */
  lemma SolutionSnoc(ions: IonDict, ion: string, conc: real)
    ensures PhreeqcSolution(ions + [(ion, conc)]) == Put(PhreeqcSolution(ions), SolutionKey(ion), SolutionValue(ion, conc))
  {
    ConvertedSnoc(ions, ion, conc);
    FromPairsSnoc(Converted(ions), (SolutionKey(ion), SolutionValue(ion, conc)));
  }

  /** A mapped ion is reported on the element basis: the written value times the factor gives the
      ion concentration back. */
  lemma ConversionInverts(ion: string, conc: real)
    requires ElementMapping(ion).Some?
    ensures SolutionValue(ion, conc) * ElementMapping(ion).value.factor == conc
  {
  }

  /** An entry the mapping does not know is passed through under its own name. */
  lemma UnknownIonPassesThrough(ions: IonDict, ion: string, conc: real)
    requires ElementMapping(ion).None?
    ensures Get(PhreeqcSolution(ions + [(ion, conc)]), ion) == Some(conc)
  {
    SolutionSnoc(ions, ion, conc);
  }

  /** Two names for the same element: the later entry's value is the one that stays, and no other
      key changes. */
  lemma LaterAliasWins(ions: IonDict, a: string, ca: real, b: string, cb: real)
    requires SolutionKey(a) == SolutionKey(b)
    ensures Get(PhreeqcSolution(ions + [(a, ca), (b, cb)]), SolutionKey(a)) == Some(SolutionValue(b, cb))
    ensures forall w :: w != SolutionKey(a) ==> Get(PhreeqcSolution(ions + [(a, ca), (b, cb)]), w) == Get(PhreeqcSolution(ions), w)
  {
    SolutionSnoc(ions, a, ca);
    assert ions + [(a, ca), (b, cb)] == (ions + [(a, ca)]) + [(b, cb)];
    SolutionSnoc(ions + [(a, ca)], b, cb);
  }

  /** Both sulfate spellings are reported as sulfur. */
  lemma SulfateSpellingsShareKeyword()
    ensures SolutionKey("SO4-2") == "S(6)" && SolutionKey("SO4") == "S(6)"
  {
  }

  // ---------------------------------------------------------------------------
  // Templates and preparation
  // ---------------------------------------------------------------------------

  const Municipal: IonDict := [
    ("Na+", 50.0), ("Ca2+", 40.0), ("Mg2+", 10.0), ("K+", 5.0), ("Cl-", 60.0), ("SO4-2", 30.0),
    ("HCO3-", 120.0), ("NO3-", 10.0)
  ]

  const Brackish: IonDict := [
    ("Na+", 1000.0), ("Ca2+", 100.0), ("Mg2+", 50.0), ("K+", 20.0), ("Cl-", 1500.0), ("SO4-2", 200.0),
    ("HCO3-", 200.0)
  ]

  const Seawater: IonDict := [
    ("Na+", 10770.0), ("Mg2+", 1290.0), ("Ca2+", 412.0), ("K+", 399.0), ("Sr2+", 7.9), ("Cl-", 19350.0),
    ("SO4-2", 2712.0), ("HCO3-", 142.0), ("Br-", 67.0), ("B(OH)4-", 4.5), ("F-", 1.3)
  ]

  /** The background-water templates by name; None for any other name. */
  function Template(name: string): Option<IonDict>
  {
    match name
    case "municipal" => Some(Municipal)
    case "brackish" => Some(Brackish)
    case "seawater" => Some(Seawater)
    case _ => None
  }

  const DefaultTemplate: string := "municipal"

  /** `get_default_water_chemistry`: a copy of the named template, or an error naming it. */
  function DefaultChemistry(template: string): (r: Result<IonDict, ChemistryError>)
    ensures r.Ok? <==> Template(template).Some?
    ensures r.Err? ==> r.error == UnknownTemplate(template)
    ensures r.Ok? ==> r.value == Template(template).value && NonNegative(r.value) && |r.value| > 0
  {
    match Template(template)
    case None => Err(UnknownTemplate(template))
    case Some(t) =>
      assert NonNegative(Municipal) && NonNegative(Brackish) && NonNegative(Seawater);
      Ok(t)
  }

  /** The record handed to the sizing tools. */
  datatype Prepared = Prepared(ions: IonDict, solution: IonDict, chargeBalancePercent: real, source: string)

  const UserSource: string := "user"
  const DefaultSourcePrefix: string := "default:"

  /** The units the preparation step declares. */
  const SolutionUnits: string := "mg/L"

  lemma SolutionUnitsAccepted()
    ensures BuildSolution([], SolutionUnits).Ok?
  {
    assert Lower(SolutionUnits) == "mg/l";
  }

  /** A truthy JSON text: present and non-empty. */
  predicate UserSupplied(json: Option<string>)
  {
    json.Some? && |json.value| > 0
  }

  /** The dictionary the preparation step starts from, with no negative concentration. */
  function ChosenIons(json: Option<string>, decode: string -> Option<Json>, template: string)
    : (r: Result<IonDict, ChemistryError>)
    ensures UserSupplied(json) ==> r == ParseChemistry(decode(json.value))
    ensures !UserSupplied(json) ==> r == DefaultChemistry(template)
    ensures r.Ok? ==> NonNegative(r.value)
  {
    if UserSupplied(json) then ParseChemistry(decode(json.value)) else DefaultChemistry(template)
  }

  /** `prepare_water_chemistry`: a non-empty JSON text is parsed and labelled "user"; otherwise the
      template is used and labelled with its name. The balance and the mg/L solution are derived
      from whichever dictionary was chosen, and the balance is a percentage within [-100, 100]. */
  function PrepareChemistry(json: Option<string>, decode: string -> Option<Json>, template: string)
    : (r: Result<Prepared, ChemistryError>)
    ensures r.Ok? <==> ChosenIons(json, decode, template).Ok?
    ensures r.Ok? ==> r.value.ions == ChosenIons(json, decode, template).value
    ensures r.Ok? ==> (r.value.source == UserSource <==> UserSupplied(json))
    ensures r.Ok? && !UserSupplied(json) ==> r.value.source == DefaultSourcePrefix + template
    ensures r.Ok? ==> r.value.chargeBalancePercent == ChargeBalance(r.value.ions)
                      && BuildSolution(r.value.ions, SolutionUnits) == Ok(r.value.solution)
    ensures r.Ok? ==> -100.0 <= r.value.chargeBalancePercent <= 100.0
  {
    var chosen :- ChosenIons(json, decode, template);
    var source := if UserSupplied(json) then UserSource else DefaultSourcePrefix + template;
    assert |DefaultSourcePrefix + template| >= 8;
    ChargeBalanceBounded(chosen);
    SolutionUnitsAccepted();
    Ok(Prepared(chosen, PhreeqcSolution(chosen), ChargeBalance(chosen), source))
  }
}
