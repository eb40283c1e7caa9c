// The compound endpoints: listing with paging, lookup by id, creation with the
// duplicate-code check, and seeding of the three default compounds.
module Compounds {
  import opened Wrappers
  import opened Models
  import opened Http
  import opened Schemas
  import opened Catalog

  /** The row the listing's exception handler returns in place of the page. */
  const FallbackRow: Compound :=
    Compound("test-compound-1", "TEST-001", "测试化合物1", Some("这是测试数据 - compounds接口正常工作"))

  /**
   * The characters a UUID's text may hold in any spelling the response
   * model accepts: hex digits, hyphens, braces and the `urn:uuid:` prefix.
   */
  predicate UuidCharacters(s: string) {
    forall i :: 0 <= i < |s| ==> UuidCharacter(s[i])
  }

  predicate UuidCharacter(c: char) {
    '0' <= c <= '9' || 'a' <= c <= 'f' || 'A' <= c <= 'F'
    || c == '-' || c == '{' || c == '}' || c == 'u' || c == 'r' || c == 'n' || c == ':' || c == 'i'
  }

  /**
   * The fallback row's id is no UUID, so the reply built around it fails
   * `CompoundListResponse`'s validation of `CompoundResponse.id`.
   */
  lemma FallbackRowRefused()
    ensures !UuidCharacters(FallbackRow.id)
  {
    assert FallbackRow.id[0] == 't' && !UuidCharacter('t');
  }

  /**
   * `get_compounds`, the route registered first: the rows `[skip, skip +
   * limit)` and the number of all compounds. When the query fails (the
   * database is `unavailable`, or it refuses a negative offset or limit)
   * the handler's fallback reply holds `FallbackRow`, which the response
   * model refuses, so the client gets a 500.
   */
  function GetCompounds(cs: seq<Compound>, skip: int, limit: int, unavailable: Option<string>)
    : (r: Result<ListResponse<Compound>, HttpError>)
    ensures r.Ok? <==> unavailable.None? && skip >= 0 && limit >= 0
    ensures r.Err? ==> r.error == Unhandled
    ensures r.Ok? ==>
      r.value.success && r.value.total == |cs| && r.value.message.None? && |r.value.data| <= limit
      && (|r.value.data| == limit || skip + |r.value.data| >= |cs|)
      && forall k :: 0 <= k < |r.value.data| ==> skip + k < |cs| && r.value.data[k] == cs[skip + k]
  {
    match (unavailable, Window(cs, skip, limit))
    case (None, Some(page)) => Ok(NewListResponse(page, |cs|))
    case _ => Err(Unhandled)
  }

  /** The total does not depend on which page is asked for. */
  lemma TotalIgnoresPaging(cs: seq<Compound>, skip1: nat, limit1: nat, skip2: nat, limit2: nat)
    ensures GetCompounds(cs, skip1, limit1, None).value.total == GetCompounds(cs, skip2, limit2, None).value.total
  {
  }

  /** Two consecutive pages of the listing together are the double-size page. */
  lemma ConsecutivePages(cs: seq<Compound>, skip: nat, limit: nat)
    ensures GetCompounds(cs, skip, limit, None).value.data + GetCompounds(cs, skip + limit, limit, None).value.data
         == GetCompounds(cs, skip, limit + limit, None).value.data
  {
    WindowsTile(cs, skip, limit, limit);
  }

  /** `get_compound`: the compound with the id, or 404. */
  function GetCompound(cs: seq<Compound>, id: Uuid): (r: Result<Compound, HttpError>)
    ensures r.Ok? <==> HasCompound(cs, id)
    ensures r.Ok? ==> r.value.id == id && r.value in cs
    ensures r.Err? ==> r.error == Fail(NotFound, "Compound with id " + id + " not found")
  {
    match CompoundById(cs, id)
    case Some(i) => Ok(cs[i])
    case None => Err(Fail(NotFound, "Compound with id " + id + " not found"))
  }

  /** With unique ids, the compound found is the one row holding the id. */
  lemma GetCompoundFindsTheRow(cs: seq<Compound>, i: nat)
    requires CompoundsUnique(cs) && i < |cs|
    ensures GetCompound(cs, cs[i].id) == Ok(cs[i])
  {
    var k := CompoundById(cs, cs[i].id).value;
    assert cs[k].id == cs[i].id;
  }

  /**
   * `create_compound`: 400 when a compound with the code exists, otherwise
   * the new row (with the generated `id`) is appended. Gives the table after
   * and the answer.
   */
  function CreateCompoundStep(cs: seq<Compound>, c: CompoundCreate, id: Uuid): (r: (seq<Compound>, Result<Compound, HttpError>))
    ensures r.1.Err? <==> exists i :: 0 <= i < |cs| && cs[i].code == c.code
    ensures r.1.Err? ==> r.0 == cs && r.1.error == Fail(BadRequest, "Compound with code " + c.code + " already exists")
    ensures r.1.Ok? ==> r.1.value == Compound(id, c.code, c.name, c.description) && r.0 == cs + [r.1.value]
  {
    if CompoundByCode(cs, c.code).Some? then (cs, Err(Fail(BadRequest, "Compound with code " + c.code + " already exists")))
    else
      var row := Compound(id, c.code, c.name, c.description);
      (cs + [row], Ok(row))
  }

  /** Creating with a fresh id keeps codes and ids unique, and the new compound can then be fetched. */
  lemma CreateKeepsUnique(cs: seq<Compound>, c: CompoundCreate, id: Uuid)
    requires CompoundsUnique(cs) && !HasCompound(cs, id)
    ensures CompoundsUnique(CreateCompoundStep(cs, c, id).0)
    ensures CreateCompoundStep(cs, c, id).1.Ok? ==>
      GetCompound(CreateCompoundStep(cs, c, id).0, id) == CreateCompoundStep(cs, c, id).1
  {
    var (after, r) := CreateCompoundStep(cs, c, id);
    if r.Ok? {
      AppendKeepsUnique(cs, r.value);
      GetCompoundFindsTheRow(after, |cs|);
    }
  }

  /** A second create with the same code is refused and changes nothing. */
  lemma CreateTwiceRefused(cs: seq<Compound>, c: CompoundCreate, id1: Uuid, id2: Uuid)
    ensures var after := CreateCompoundStep(cs, c, id1).0;
      CreateCompoundStep(after, c, id2) == (after, Err(Fail(BadRequest, "Compound with code " + c.code + " already exists")))
  {
    var (after, r) := CreateCompoundStep(cs, c, id1);
    if r.Ok? {
      assert after[|cs|].code == c.code;
    }
  }

  method CreateCompound(db: Database, c: CompoundCreate, id: Uuid) returns (r: Result<Compound, HttpError>)
    modifies db
    ensures (db.compounds, r) == CreateCompoundStep(old(db.compounds), c, id)
    ensures db.templates == old(db.templates)
    ensures old(db.Valid()) && !HasCompound(old(db.compounds), id) ==> db.Valid()
  {
    if CompoundByCode(db.compounds, c.code).Some? {
      return Err(Fail(BadRequest, "Compound with code " + c.code + " already exists"));
    }
    var row := Compound(id, c.code, c.name, c.description);
    ghost var before := db.compounds;
    db.compounds := db.compounds + [row];
    r := Ok(row);
    if TablesValid(before, db.templates) && !HasCompound(before, id) {
      CreateKeepsUnique(before, c, id);
      ReferencesSurviveGrowth(before, [row], db.templates);
    }
  }

  /** The compounds `initialize_default_compounds` makes sure exist. */
  const Defaults: seq<Seed> := [
    Seed("BGB-21447", "Compound BGB-21447", "Default compound 1"),
    Seed("BGB-16673", "Compound BGB-16673", "Default compound 2"),
    Seed("BGB-43395", "Compound BGB-43395", "Default compound 3")]

  /**
   * `initialize_default_compounds`: inserts the missing defaults and answers
   * with the inserted rows, or with all compounds when none was missing.
   */
  function InitializeDefaultsStep(cs: seq<Compound>, ids: seq<Uuid>): (r: (seq<Compound>, seq<Compound>))
    requires |ids| == |Defaults|
    ensures forall k :: 0 <= k < |Defaults| ==> CompoundByCode(r.0, Defaults[k].code).Some?
    ensures |cs| <= |r.0| <= |cs| + |Defaults| && r.0[..|cs|] == cs
    ensures r.1 == r.0[|cs|..] || (r.1 == r.0 && r.0 == cs)
  {
    var s := SeedCompounds(cs, Defaults, ids);
    SeedsPresent(cs, Defaults, ids);
    assert s.0[..|cs|] == cs && s.0[|cs|..] == s.1;
    (s.0, if s.1 != [] then s.1 else s.0)
  }

  /** A second initialisation inserts nothing and answers with all compounds. */
  lemma InitializeTwiceCreatesNothing(cs: seq<Compound>, ids1: seq<Uuid>, ids2: seq<Uuid>)
    requires |ids1| == |Defaults| && |ids2| == |Defaults|
    ensures var after := InitializeDefaultsStep(cs, ids1).0;
      InitializeDefaultsStep(after, ids2) == (after, after)
  {
    SeedingIdempotent(cs, Defaults, ids1, ids2);
  }

  /** Seeding with fresh ids keeps the tables valid. */
  lemma InitializeKeepsValid(cs: seq<Compound>, ts: seq<Template>, ids: seq<Uuid>)
    requires |ids| == |Defaults| && TablesValid(cs, ts) && FreshIds(cs, ids)
    ensures TablesValid(InitializeDefaultsStep(cs, ids).0, ts)
  {
    SeedingKeepsUnique(cs, Defaults, ids);
    ReferencesSurviveGrowth(cs, SeedCompounds(cs, Defaults, ids).1, ts);
  }

  method InitializeDefaultCompounds(db: Database, ids: seq<Uuid>) returns (r: seq<Compound>)
    requires |ids| == |Defaults|
    modifies db
    ensures (db.compounds, r) == InitializeDefaultsStep(old(db.compounds), ids)
    ensures db.templates == old(db.templates)
  {
    var created, _ := SeedLoop(db, Defaults, ids);
    if created != [] {
      r := created;
    } else {
      r := db.compounds;
    }
  }
}
