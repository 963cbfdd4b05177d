/** The packing catalog: lookup by id, filtering by name, material and size, and the default
    packing for an application. The catalog is passed in as an insertion-ordered dictionary
    from packing id to properties, in the order the catalog file lists them.
 */
module PackingProperties {
  import opened Basics

  /** One catalog entry. Fields the file may omit are optional; `packingId` is present only on
      entries handed out by the default lookup (or when the file itself carries one). */
  datatype Packing = Packing(
    name: Option<string>, material: Option<string>, nominalSizeMm: Option<real>,
    packingFactorPerM: real, surfaceAreaM2M3: real, voidFraction: real, packingId: Option<string>)

  type Catalog = Dict<string, Packing>

  /** Size criterion tolerance, mm. */
  const SizeTolerance: real := 0.1

  const PlasticPallRings50: string := "Plastic_Pall_Rings_50mm"
  const CeramicIntaloxSaddles25: string := "Ceramic_Intalox_Saddles_25mm"
  const MetalPallRings50: string := "Metal_Pall_Rings_50mm"

  /** `get_packing_by_id`: the entry stored under the id, or None. */
  function PackingById(catalog: Catalog, id: string): (r: Option<Packing>)
    ensures r.Some? <==> id in KeySet(catalog)
    ensures forall i :: 0 <= i < |catalog| && catalog[i].0 == id && UniqueKeys(catalog) ==> r == Some(catalog[i].1)
  {
    forall i | 0 <= i < |catalog| && catalog[i].0 == id && UniqueKeys(catalog) ensures Get(catalog, id) == Some(catalog[i].1) {
      GetAt(catalog, i);
    }
    Get(catalog, id)
  }

  /** Search criteria; a name or material that is None or empty is not applied, a size is
      applied whenever given. */
  datatype Criteria = Criteria(name: Option<string>, material: Option<string>, sizeMm: Option<real>)

  function Applied(s: Option<string>): bool
  {
    s.Some? && |s.value| > 0
  }

  function TextOf(s: Option<string>): string
  {
    if s.Some? then s.value else ""
  }

  /** The three criteria of `find_packings` against one entry. */
  predicate Matches(q: Criteria, p: Packing)
  {
    (!Applied(q.name) || Contains(Lower(TextOf(p.name)), Lower(q.name.value)))
    && (!Applied(q.material) || Lower(q.material.value) == Lower(TextOf(p.material)))
    && (q.sizeMm.None? || (p.nominalSizeMm.Some? && Abs(p.nominalSizeMm.value - q.sizeMm.value) <= SizeTolerance))
  }

  /** `{'packing_id': id, **props}`: the id goes first, so an id already in the properties wins. */
  function Tagged(id: string, p: Packing): (t: Packing)
    ensures t.packingId.Some?
    ensures p.packingId.None? ==> t == p.(packingId := Some(id))
    ensures p.packingId.Some? ==> t == p
  {
    if p.packingId.Some? then p else p.(packingId := Some(id))
  }

  /** The matching entries, tagged, in catalog order. */
  function Filtered(q: Criteria, catalog: Catalog): (r: seq<Packing>)
    ensures |r| <= |catalog|
  {
    if |catalog| == 0 then []
    else (if Matches(q, catalog[0].1) then [Tagged(catalog[0].0, catalog[0].1)] else []) + Filtered(q, catalog[1..])
  }

  /** `find_packings`: one pass over the catalog, keeping the entries every criterion accepts. */
  method FindPackings(q: Criteria, catalog: Catalog) returns (matches: seq<Packing>)
    ensures matches == Filtered(q, catalog)
    ensures forall p :: p in matches <==>
              exists i :: 0 <= i < |catalog| && Matches(q, catalog[i].1) && p == Tagged(catalog[i].0, catalog[i].1)
  {
    matches := [];
    var i := 0;
    while i < |catalog|
      invariant 0 <= i <= |catalog|
      invariant matches + Filtered(q, catalog[i..]) == Filtered(q, catalog)
    {
      var step := if Matches(q, catalog[i].1) then [Tagged(catalog[i].0, catalog[i].1)] else [];
      FilteredStep(q, catalog, i);
      assert (matches + step) + Filtered(q, catalog[i + 1..]) == matches + (step + Filtered(q, catalog[i + 1..]));
      matches := matches + step;
      i := i + 1;
    }
    assert catalog[i..] == [];
    FilteredMembership(q, catalog);
  }

  /** Filtering a suffix takes its first entry or not, then filters the rest. */
  lemma FilteredStep(q: Criteria, catalog: Catalog, i: nat)
    requires i < |catalog|
    ensures Filtered(q, catalog[i..])
            == (if Matches(q, catalog[i].1) then [Tagged(catalog[i].0, catalog[i].1)] else []) + Filtered(q, catalog[i + 1..])
  {
    assert catalog[i..][1..] == catalog[i + 1..];
  }

  /** An entry appears in the filtered list exactly when some catalog position matches. */
  lemma {:induction false} FilteredMembership(q: Criteria, catalog: Catalog)
    ensures forall p :: p in Filtered(q, catalog) <==>
              exists i :: 0 <= i < |catalog| && Matches(q, catalog[i].1) && p == Tagged(catalog[i].0, catalog[i].1)
  {
    if |catalog| > 0 {
      FilteredMembership(q, catalog[1..]);
      forall p | p in Filtered(q, catalog)
        ensures exists i :: 0 <= i < |catalog| && Matches(q, catalog[i].1) && p == Tagged(catalog[i].0, catalog[i].1)
      {
        if !(Matches(q, catalog[0].1) && p == Tagged(catalog[0].0, catalog[0].1)) {
          var j :| 0 <= j < |catalog[1..]| && Matches(q, catalog[1..][j].1) && p == Tagged(catalog[1..][j].0, catalog[1..][j].1);
          assert catalog[1..][j] == catalog[j + 1];
        }
      }
      forall p | exists i :: 0 <= i < |catalog| && Matches(q, catalog[i].1) && p == Tagged(catalog[i].0, catalog[i].1)
        ensures p in Filtered(q, catalog)
      {
        var i :| 0 <= i < |catalog| && Matches(q, catalog[i].1) && p == Tagged(catalog[i].0, catalog[i].1);
        if i > 0 {
          assert catalog[1..][i - 1] == catalog[i];
        }
      }
    }
  }

  /** No criteria: the whole catalog comes back, tagged, in order. */
  lemma {:induction false} EmptyCriteriaKeepAll(catalog: Catalog)
    ensures var r := Filtered(Criteria(None, None, None), catalog);
            |r| == |catalog| && forall i :: 0 <= i < |catalog| ==> r[i] == Tagged(catalog[i].0, catalog[i].1)
  {
    if |catalog| > 0 {
      EmptyCriteriaKeepAll(catalog[1..]);
      var r := Filtered(Criteria(None, None, None), catalog);
      assert r == [Tagged(catalog[0].0, catalog[0].1)] + Filtered(Criteria(None, None, None), catalog[1..]);
      forall i | 1 <= i < |catalog| ensures r[i] == Tagged(catalog[i].0, catalog[i].1) {
        assert catalog[1..][i - 1] == catalog[i];
      }
    }
  }

  /** The default packing id by application (case-insensitive). */
  function DefaultPackingId(application: string): (id: string)
    ensures PhSensitive(application) ==> id == PlasticPallRings50
    ensures Upper(application) == "VOC" ==> id == CeramicIntaloxSaddles25
    ensures !PhSensitive(application) && Upper(application) != "VOC" ==> id == MetalPallRings50
  {
    if PhSensitive(application) then PlasticPallRings50
    else if Upper(application) == "VOC" then CeramicIntaloxSaddles25
    else MetalPallRings50
  }

  /** `get_default_packing`: the application's default, tagged with its id; when the catalog
      lacks it, the first catalog entry tagged with its own id; when the catalog is empty, None. */
  function DefaultPacking(catalog: Catalog, application: string): (r: Option<Packing>)
    ensures var id := DefaultPackingId(application);
            id in KeySet(catalog) ==> r == Some(Get(catalog, id).value.(packingId := Some(id)))
    ensures var id := DefaultPackingId(application);
            id !in KeySet(catalog) && |catalog| > 0 ==> r == Some(catalog[0].1.(packingId := Some(catalog[0].0)))
    ensures r.None? <==> |catalog| == 0
    ensures r.Some? ==> r.value.packingId.Some? && r.value.packingId.value in KeySet(catalog)
  {
    var id := DefaultPackingId(application);
    match PackingById(catalog, id)
    case Some(p) => Some(p.(packingId := Some(id)))
    case None =>
      if |catalog| > 0 then
        assert catalog[0].0 in KeySet(catalog);
        Some(catalog[0].1.(packingId := Some(catalog[0].0)))
      else None
  }
}
