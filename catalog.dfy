// The compound and template tables as the endpoints and the seeding script see
// them through one database session, with the lookups and the paging they run.
// Rows are kept in the order the table returns them (insertion order).
module Catalog {
  import opened Wrappers
  import opened Models

  /** `query.filter(p).first()`: the position of the first row satisfying `p`. */
  function IndexWhere<T>(s: seq<T>, p: T -> bool): (r: Option<nat>)
    ensures r.Some? ==> r.value < |s| && p(s[r.value]) && forall j :: 0 <= j < r.value ==> !p(s[j])
    ensures r.None? <==> forall i :: 0 <= i < |s| ==> !p(s[i])
  {
    if s == [] then None
    else if p(s[0]) then Some(0)
    else match IndexWhere(s[1..], p)
      case None => None
      case Some(k) => Some(k + 1)
  }

  function CompoundById(cs: seq<Compound>, id: Uuid): (r: Option<nat>)
    ensures r.Some? ==> r.value < |cs| && cs[r.value].id == id
    ensures r.None? <==> forall i :: 0 <= i < |cs| ==> cs[i].id != id
  {
    IndexWhere(cs, (c: Compound) => c.id == id)
  }

  function CompoundByCode(cs: seq<Compound>, code: string): (r: Option<nat>)
    ensures r.Some? ==> r.value < |cs| && cs[r.value].code == code
    ensures r.None? <==> forall i :: 0 <= i < |cs| ==> cs[i].code != code
  {
    IndexWhere(cs, (c: Compound) => c.code == code)
  }

  function TemplateById(ts: seq<Template>, id: Uuid): (r: Option<nat>)
    ensures r.Some? ==> r.value < |ts| && ts[r.value].id == id
    ensures r.None? <==> forall i :: 0 <= i < |ts| ==> ts[i].id != id
  {
    IndexWhere(ts, (t: Template) => t.id == id)
  }

  /** The template of a compound for a region, if there is one. */
  function TemplateFor(ts: seq<Template>, compoundId: Uuid, region: Region): (r: Option<nat>)
    ensures r.Some? ==> r.value < |ts| && ts[r.value].compoundId == compoundId && ts[r.value].region == region
    ensures r.None? <==> forall i :: 0 <= i < |ts| ==> !(ts[i].compoundId == compoundId && ts[i].region == region)
  {
    IndexWhere(ts, (t: Template) => t.compoundId == compoundId && t.region == region)
  }

  /**
   * `.offset(skip).limit(limit)`: at most `limit` rows starting at position
   * `skip`. The database refuses a negative OFFSET or LIMIT, giving None.
   */
  function Window<T>(rows: seq<T>, skip: int, limit: int): (r: Option<seq<T>>)
    ensures r.Some? <==> skip >= 0 && limit >= 0
    ensures r.Some? ==> |r.value| <= limit
    ensures r.Some? && skip + limit <= |rows| ==> |r.value| == limit
    ensures r.Some? && skip + limit > |rows| ==> skip + |r.value| >= |rows|
    ensures r.Some? ==> forall k :: 0 <= k < |r.value| ==> skip + k < |rows| && r.value[k] == rows[skip + k]
  {
    if skip < 0 || limit < 0 then None
    else if skip >= |rows| then Some([])
    else Some(rows[skip .. if skip + limit <= |rows| then skip + limit else |rows|])
  }

  /** Consecutive pages tile the table: a window of `a + b` rows is the window of `a` followed by the next `b`. */
  lemma WindowsTile<T>(rows: seq<T>, skip: nat, a: nat, b: nat)
    ensures Window(rows, skip, a).value + Window(rows, skip + a, b).value == Window(rows, skip, a + b).value
  {
    if skip + a < |rows| {
      var end := if skip + a + b <= |rows| then skip + a + b else |rows|;
      assert rows[skip .. skip + a] + rows[skip + a .. end] == rows[skip .. end];
    }
  }

  /** Paging through the whole table from the start, `|rows|` rows at a time, returns all of it. */
  lemma FirstPageOfAll<T>(rows: seq<T>)
    ensures Window(rows, 0, |rows|) == Some(rows)
  {
    if rows != [] {
      assert rows[0 .. |rows|] == rows;
    }
  }

  /** Compound codes (the unique column) and ids are distinct. */
  predicate CompoundsUnique(cs: seq<Compound>) {
    forall i, j :: 0 <= i < j < |cs| ==> cs[i].code != cs[j].code && cs[i].id != cs[j].id
  }

  predicate HasCompound(cs: seq<Compound>, id: Uuid) {
    exists k :: 0 <= k < |cs| && cs[k].id == id
  }

  /** Template ids are distinct, and a compound has at most one template per region. */
  predicate TemplatesUnique(ts: seq<Template>) {
    forall i, j :: 0 <= i < j < |ts| ==>
      ts[i].id != ts[j].id && !(ts[i].compoundId == ts[j].compoundId && ts[i].region == ts[j].region)
  }

  /** Every template's `compound_id` references an existing compound (the foreign key). */
  predicate TemplatesReferenceCompounds(cs: seq<Compound>, ts: seq<Template>) {
    forall i :: 0 <= i < |ts| ==> HasCompound(cs, ts[i].compoundId)
  }

  predicate TablesValid(cs: seq<Compound>, ts: seq<Template>) {
    CompoundsUnique(cs) && TemplatesUnique(ts) && TemplatesReferenceCompounds(cs, ts)
  }

  /** A compound that is only ever added to keeps every reference it had. */
  lemma ReferencesSurviveGrowth(cs: seq<Compound>, more: seq<Compound>, ts: seq<Template>)
    requires TemplatesReferenceCompounds(cs, ts)
    ensures TemplatesReferenceCompounds(cs + more, ts)
  {
    forall i | 0 <= i < |ts| ensures HasCompound(cs + more, ts[i].compoundId) {
      assert HasCompound(cs, ts[i].compoundId);
      var k :| 0 <= k < |cs| && cs[k].id == ts[i].compoundId;
      assert (cs + more)[k] == cs[k];
    }
  }

  /** A default compound: its code, name and description. */
  datatype Seed = Seed(code: string, name: string, description: string)

  /**
   * No two seeds share a code. Both callers pass three distinct codes; with a
   * repeated code the session would add two rows for it and the commit would
   * break the unique index on `code`.
   */
  predicate DistinctCodes(seeds: seq<Seed>) {
    forall i, j :: 0 <= i < j < |seeds| ==> seeds[i].code != seeds[j].code
  }

  lemma DistinctPrefix(seeds: seq<Seed>, n: nat)
    requires DistinctCodes(seeds) && n <= |seeds|
    ensures DistinctCodes(seeds[..n])
  {
    assert forall i :: 0 <= i < n ==> seeds[..n][i] == seeds[i];
  }

  /**
   * The default-compound loop shared by the seeding endpoint and the seeding
   * script: each seed whose code is absent from the table is inserted with its
   * id. Gives the table after, the inserted rows in order, and for each seed
   * the row holding its code (the existing one or the new one). The lookup
   * here runs over the table as it grows; with distinct codes that finds the
   * same rows as the session's lookup over the committed table
   * (`PendingRowsUnseen`).
   */
  function SeedCompounds(cs: seq<Compound>, seeds: seq<Seed>, ids: seq<Uuid>): (r: (seq<Compound>, seq<Compound>, seq<Compound>))
    requires |ids| == |seeds| && DistinctCodes(seeds)
    ensures r.0 == cs + r.1
    ensures |r.1| <= |seeds| && |r.2| == |seeds|
    ensures forall k :: 0 <= k < |seeds| ==> r.2[k].code == seeds[k].code && r.2[k] in r.0
    ensures forall m :: 0 <= m < |r.1| ==> r.1[m].id in ids
    decreases |seeds|
  {
    if seeds == [] then (cs, [], [])
    else
      var n := |seeds| - 1;
      var prev := SeedCompounds(cs, seeds[..n], ids[..n]);
      match CompoundByCode(prev.0, seeds[n].code)
      case Some(i) => (prev.0, prev.1, prev.2 + [prev.0[i]])
      case None =>
        var c := Compound(ids[n], seeds[n].code, seeds[n].name, Some(seeds[n].description));
        (prev.0 + [c], prev.1 + [c], prev.2 + [c])
  }

  /** Ids that are distinct and unused in the table. */
  predicate FreshIds(cs: seq<Compound>, ids: seq<Uuid>) {
    (forall i, j :: 0 <= i < j < |ids| ==> ids[i] != ids[j])
    && forall i, k :: 0 <= i < |ids| && 0 <= k < |cs| ==> ids[i] != cs[k].id
  }

  /** When every seed's code is already present, seeding inserts nothing. */
  lemma {:induction false} NothingToSeed(cs: seq<Compound>, seeds: seq<Seed>, ids: seq<Uuid>)
    requires |ids| == |seeds| && DistinctCodes(seeds)
    requires forall k :: 0 <= k < |seeds| ==> CompoundByCode(cs, seeds[k].code).Some?
    ensures SeedCompounds(cs, seeds, ids).1 == []
    decreases |seeds|
  {
    if seeds != [] {
      var n := |seeds| - 1;
      NothingToSeed(cs, seeds[..n], ids[..n]);
      var prev := SeedCompounds(cs, seeds[..n], ids[..n]);
      assert prev.0 == cs;
      assert CompoundByCode(prev.0, seeds[n].code).Some?;
    }
  }

  /** After seeding, every seed's code is in the table. */
  lemma SeedsPresent(cs: seq<Compound>, seeds: seq<Seed>, ids: seq<Uuid>)
    requires |ids| == |seeds| && DistinctCodes(seeds)
    ensures forall k :: 0 <= k < |seeds| ==> CompoundByCode(SeedCompounds(cs, seeds, ids).0, seeds[k].code).Some?
  {
    var s := SeedCompounds(cs, seeds, ids);
    forall k | 0 <= k < |seeds| ensures CompoundByCode(s.0, seeds[k].code).Some? {
      var i :| 0 <= i < |s.0| && s.0[i] == s.2[k];
    }
  }

  /** Rows appended after a code's first holder do not change which row is found. */
  lemma FirstHolderStays(cs: seq<Compound>, more: seq<Compound>, code: string)
    requires CompoundByCode(cs, code).Some?
    ensures CompoundByCode(cs + more, code) == CompoundByCode(cs, code)
  {
    var a := CompoundByCode(cs, code).value;
    assert (cs + more)[a] == cs[a];
  }

  /** For a code already in the table, seeding resolves the seed to the code's first holder. */
  lemma {:induction false} ResolvedIsFirstMatch(cs: seq<Compound>, seeds: seq<Seed>, ids: seq<Uuid>, k: nat)
    requires |ids| == |seeds| && DistinctCodes(seeds) && k < |seeds| && CompoundByCode(cs, seeds[k].code).Some?
    ensures SeedCompounds(cs, seeds, ids).2[k] == cs[CompoundByCode(cs, seeds[k].code).value]
    decreases |seeds|
  {
    var n := |seeds| - 1;
    DistinctPrefix(seeds, n);
    var prev := SeedCompounds(cs, seeds[..n], ids[..n]);
    SeedUnfold(cs, seeds, ids, n);
    assert seeds[..n + 1] == seeds && ids[..n + 1] == ids;
    if k < n {
      assert seeds[..n][k] == seeds[k];
      ResolvedIsFirstMatch(cs, seeds[..n], ids[..n], k);
    } else {
      FirstHolderStays(cs, prev.1, seeds[k].code);
    }
  }

  /** Seeding twice inserts nothing the second time. */
  lemma SeedingIdempotent(cs: seq<Compound>, seeds: seq<Seed>, ids: seq<Uuid>, ids2: seq<Uuid>)
    requires |ids| == |seeds| && |ids2| == |seeds| && DistinctCodes(seeds)
    ensures var after := SeedCompounds(cs, seeds, ids).0;
      SeedCompounds(after, seeds, ids2).0 == after && SeedCompounds(after, seeds, ids2).1 == []
  {
    var after := SeedCompounds(cs, seeds, ids).0;
    SeedsPresent(cs, seeds, ids);
    NothingToSeed(after, seeds, ids2);
  }

  /** With unique codes, looking a row's code up finds that row. */
  lemma FoundByUniqueCode(cs: seq<Compound>, c: Compound)
    requires CompoundsUnique(cs) && c in cs
    ensures CompoundByCode(cs, c.code).Some? && cs[CompoundByCode(cs, c.code).value] == c
  {
    var i :| 0 <= i < |cs| && cs[i] == c;
    var f := CompoundByCode(cs, c.code).value;
    assert cs[f].code == cs[i].code;
  }

  /**
   * Seeding again after a seeding with fresh ids inserts nothing and resolves
   * every seed to the same row as the first time.
   */
  lemma ReseedingResolvesAlike(cs: seq<Compound>, seeds: seq<Seed>, ids: seq<Uuid>, ids2: seq<Uuid>)
    requires |ids| == |seeds| && |ids2| == |seeds| && DistinctCodes(seeds)
    requires CompoundsUnique(cs) && FreshIds(cs, ids)
    ensures var first := SeedCompounds(cs, seeds, ids);
      SeedCompounds(first.0, seeds, ids2) == (first.0, [], first.2)
  {
    var first := SeedCompounds(cs, seeds, ids);
    SeedingKeepsUnique(cs, seeds, ids);
    SeedingIdempotent(cs, seeds, ids, ids2);
    SeedsPresent(cs, seeds, ids);
    var second := SeedCompounds(first.0, seeds, ids2);
    assert second.0 == first.0 && second.1 == [];
    forall k | 0 <= k < |seeds| ensures second.2[k] == first.2[k] {
      FoundByUniqueCode(first.0, first.2[k]);
      ResolvedIsFirstMatch(first.0, seeds, ids2, k);
    }
    assert second.2 == first.2;
  }

  /** Appending a compound whose code and id are new keeps codes and ids unique. */
  lemma AppendKeepsUnique(cs: seq<Compound>, c: Compound)
    requires CompoundsUnique(cs)
    requires CompoundByCode(cs, c.code).None? && CompoundById(cs, c.id).None?
    ensures CompoundsUnique(cs + [c])
  {
  }

  /** Seeding with fresh ids keeps codes and ids unique. */
  lemma {:induction false} SeedingKeepsUnique(cs: seq<Compound>, seeds: seq<Seed>, ids: seq<Uuid>)
    requires |ids| == |seeds| && DistinctCodes(seeds) && CompoundsUnique(cs) && FreshIds(cs, ids)
    ensures CompoundsUnique(SeedCompounds(cs, seeds, ids).0)
    decreases |seeds|
  {
    if seeds != [] {
      var n := |seeds| - 1;
      assert FreshIds(cs, ids[..n]);
      SeedingKeepsUnique(cs, seeds[..n], ids[..n]);
      var prev := SeedCompounds(cs, seeds[..n], ids[..n]);
      if CompoundByCode(prev.0, seeds[n].code).None? {
        forall k | 0 <= k < |prev.0| ensures prev.0[k].id != ids[n] {
          if k < |cs| {
            assert prev.0[k] == cs[k];
          } else {
            assert prev.0[k] == prev.1[k - |cs|];
            assert ids[n] !in ids[..n];
          }
        }
        AppendKeepsUnique(prev.0, Compound(ids[n], seeds[n].code, seeds[n].name, Some(seeds[n].description)));
      }
    }
  }

  /** The `compounds` and `templates` tables of the database. */
  class Database {
    var compounds: seq<Compound>
    var templates: seq<Template>

    constructor ()
      ensures compounds == [] && templates == []
    {
      compounds := [];
      templates := [];
    }

    predicate Valid()
      reads this
    {
      TablesValid(compounds, templates)
    }
  }

  /**
   * The default-compound loop as the session runs it: for each seed, look the
   * code up and add a row when it is absent. The session does not flush
   * before a query, so the lookup sees the committed table and not the rows
   * added in this loop. Gives the inserted rows and, for each seed, the row
   * holding its code.
   */
  method SeedLoop(db: Database, seeds: seq<Seed>, ids: seq<Uuid>) returns (inserted: seq<Compound>, resolved: seq<Compound>)
    requires |ids| == |seeds| && DistinctCodes(seeds)
    modifies db
    ensures (db.compounds, inserted, resolved) == SeedCompounds(old(db.compounds), seeds, ids)
    ensures db.templates == old(db.templates)
  {
    inserted, resolved := [], [];
    var committed := db.compounds;
    for i := 0 to |seeds|
      invariant db.compounds == SeedCompounds(committed, seeds[..i], ids[..i]).0
      invariant inserted == SeedCompounds(committed, seeds[..i], ids[..i]).1
      invariant resolved == SeedCompounds(committed, seeds[..i], ids[..i]).2
      invariant db.templates == old(db.templates)
    {
      SeedUnfold(committed, seeds, ids, i);
      PendingRowsUnseen(committed, seeds, ids, i);
      match CompoundByCode(committed, seeds[i].code)
      case Some(k) =>
        resolved := resolved + [committed[k]];
      case None =>
        var c := Compound(ids[i], seeds[i].code, seeds[i].name, Some(seeds[i].description));
        db.compounds := db.compounds + [c];
        inserted := inserted + [c];
        resolved := resolved + [c];
    }
    assert seeds[..|seeds|] == seeds && ids[..|ids|] == ids;
  }

  /** One more seed: the loop's step. */
  lemma SeedUnfold(cs: seq<Compound>, seeds: seq<Seed>, ids: seq<Uuid>, i: nat)
    requires |ids| == |seeds| && DistinctCodes(seeds) && i < |seeds|
    ensures var prev := SeedCompounds(cs, seeds[..i], ids[..i]);
      SeedCompounds(cs, seeds[..i + 1], ids[..i + 1]) ==
        match CompoundByCode(prev.0, seeds[i].code)
        case Some(k) => (prev.0, prev.1, prev.2 + [prev.0[k]])
        case None =>
          var c := Compound(ids[i], seeds[i].code, seeds[i].name, Some(seeds[i].description));
          (prev.0 + [c], prev.1 + [c], prev.2 + [c])
  {
    assert seeds[..i + 1][..i] == seeds[..i] && ids[..i + 1][..i] == ids[..i];
  }

  /** Appending a row with another code does not change what a lookup of `code` finds. */
  lemma AppendOtherCode(cs: seq<Compound>, c: Compound, code: string)
    requires c.code != code
    ensures CompoundByCode(cs + [c], code) == CompoundByCode(cs, code)
  {
    if CompoundByCode(cs, code).Some? {
      FirstHolderStays(cs, [c], code);
    } else {
      assert forall i :: 0 <= i < |cs + [c]| ==> (cs + [c])[i].code != code by {
        forall i | 0 <= i < |cs + [c]| ensures (cs + [c])[i].code != code {
          if i < |cs| { assert (cs + [c])[i] == cs[i]; }
        }
      }
    }
  }

  /** Rows added for other codes do not change what a lookup of `code` finds. */
  lemma {:induction false} OtherCodesUnseen(cs: seq<Compound>, seeds: seq<Seed>, ids: seq<Uuid>, code: string)
    requires |ids| == |seeds| && DistinctCodes(seeds)
    requires forall k :: 0 <= k < |seeds| ==> seeds[k].code != code
    ensures CompoundByCode(SeedCompounds(cs, seeds, ids).0, code) == CompoundByCode(cs, code)
    decreases |seeds|
  {
    if seeds != [] {
      var n := |seeds| - 1;
      DistinctPrefix(seeds, n);
      assert forall k :: 0 <= k < n ==> seeds[..n][k] == seeds[k];
      OtherCodesUnseen(cs, seeds[..n], ids[..n], code);
      SeedUnfold(cs, seeds, ids, n);
      assert seeds[..n + 1] == seeds && ids[..n + 1] == ids;
      var prev := SeedCompounds(cs, seeds[..n], ids[..n]);
      if CompoundByCode(prev.0, seeds[n].code).None? {
        AppendOtherCode(prev.0, Compound(ids[n], seeds[n].code, seeds[n].name, Some(seeds[n].description)), code);
      }
    }
  }

  /**
   * With distinct codes, the lookup for the `i`-th seed finds the same row in
   * the table grown by the earlier seeds as in the committed table.
   */
  lemma PendingRowsUnseen(cs: seq<Compound>, seeds: seq<Seed>, ids: seq<Uuid>, i: nat)
    requires |ids| == |seeds| && DistinctCodes(seeds) && i < |seeds|
    ensures var grown := SeedCompounds(cs, seeds[..i], ids[..i]).0;
      CompoundByCode(grown, seeds[i].code) == CompoundByCode(cs, seeds[i].code)
      && (CompoundByCode(cs, seeds[i].code).Some? ==> grown[CompoundByCode(cs, seeds[i].code).value] == cs[CompoundByCode(cs, seeds[i].code).value])
  {
    OtherCodesUnseen(cs, seeds[..i], ids[..i], seeds[i].code);
    var grown := SeedCompounds(cs, seeds[..i], ids[..i]);
    assert grown.0 == cs + grown.1;
  }
}
