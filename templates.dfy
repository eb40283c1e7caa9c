// The template endpoints: listing filtered by compound with paging, lookup,
// creation with the one-template-per-compound-and-region check, partial
// update and deletion.
module Templates {
  import opened Wrappers
  import opened Models
  import opened Http
  import opened Schemas
  import opened Catalog

  /** The templates of one compound, in table order. */
  function OfCompound(ts: seq<Template>, compoundId: Uuid): (r: seq<Template>)
    ensures |r| <= |ts|
    ensures forall t :: t in r <==> t in ts && t.compoundId == compoundId
  {
    if ts == [] then []
    else
      var prev := OfCompound(ts[..|ts| - 1], compoundId);
      var last := ts[|ts| - 1];
      assert ts == ts[..|ts| - 1] + [last];
      if last.compoundId == compoundId then prev + [last] else prev
  }

  /** The rows the listing's query selects: all of them, or one compound's. */
  function Selected(ts: seq<Template>, compoundId: Option<Uuid>): seq<Template> {
    if compoundId.Some? then OfCompound(ts, compoundId.value) else ts
  }

  /**
   * `get_templates`: a page of the selected templates, and the number of
   * selected templates regardless of the page. The database's refusal of a
   * negative offset or limit is not caught.
   */
  function GetTemplates(ts: seq<Template>, compoundId: Option<Uuid>, skip: int, limit: int)
    : (r: Result<ListResponse<Template>, HttpError>)
    ensures r.Ok? <==> skip >= 0 && limit >= 0
    ensures r.Err? ==> r.error == Unhandled
    ensures r.Ok? ==> r.value.success && r.value.total == |Selected(ts, compoundId)| && |r.value.data| <= limit
    ensures r.Ok? ==> forall k :: 0 <= k < |r.value.data| ==>
      r.value.data[k] in ts && (compoundId.Some? ==> r.value.data[k].compoundId == compoundId.value)
    ensures r.Ok? ==>
      (|r.value.data| == limit || skip + |r.value.data| >= |Selected(ts, compoundId)|)
      && forall k :: 0 <= k < |r.value.data| ==>
           skip + k < |Selected(ts, compoundId)| && r.value.data[k] == Selected(ts, compoundId)[skip + k]
  {
    var rows := Selected(ts, compoundId);
    match Window(rows, skip, limit)
    case Some(page) =>
      assert forall k :: 0 <= k < |page| ==> page[k] in rows;
      Ok(NewListResponse(page, |rows|))
    case None => Err(Unhandled)
  }

  /** Without a compound filter the listing counts every template. */
  lemma UnfilteredTotal(ts: seq<Template>, skip: nat, limit: nat)
    ensures GetTemplates(ts, None, skip, limit).value.total == |ts|
  {
  }

  /** Filtering keeps the table's order: a compound's templates are exactly its own subsequence. */
  lemma {:induction false} OfCompoundOfItsOwn(ts: seq<Template>, compoundId: Uuid)
    requires forall i :: 0 <= i < |ts| ==> ts[i].compoundId == compoundId
    ensures OfCompound(ts, compoundId) == ts
  {
    if ts != [] {
      OfCompoundOfItsOwn(ts[..|ts| - 1], compoundId);
      assert ts[..|ts| - 1] + [ts[|ts| - 1]] == ts;
    }
  }

  /** The filtered total is the number of templates of that compound: at most one per region. */
  lemma OfCompoundAtMostThree(ts: seq<Template>, compoundId: Uuid)
    requires TemplatesUnique(ts)
    ensures |OfCompound(ts, compoundId)| <= 3
  {
    OfCompoundUnique(ts, compoundId);
    DistinctRegionsBound(OfCompound(ts, compoundId), compoundId, {});
  }

  /** Templates of one compound with distinct regions, none of them among `seen`, number at most the regions left. */
  lemma {:induction false} DistinctRegionsBound(r: seq<Template>, compoundId: Uuid, seen: set<Region>)
    requires TemplatesUnique(r)
    requires forall i :: 0 <= i < |r| ==> r[i].compoundId == compoundId && r[i].region !in seen
    ensures |r| + |seen| <= 3
  {
    if r == [] {
      assert seen <= {CN, EU, US} by {
        forall x | x in seen ensures x in {CN, EU, US} {
          assert x.CN? || x.EU? || x.US?;
        }
      }
      SubsetCard(seen, {CN, EU, US});
    } else {
      assert TemplatesUnique(r[1..]);
      DistinctRegionsBound(r[1..], compoundId, seen + {r[0].region});
    }
  }

  lemma SubsetCard(a: set<Region>, b: set<Region>)
    requires a <= b
    ensures |a| <= |b|
  {
    if a != {} {
      var x :| x in a;
      SubsetCard(a - {x}, b - {x});
    }
  }

  /** The selected templates of a valid table are themselves pairwise distinct in (compound, region). */
  lemma {:induction false} OfCompoundUnique(ts: seq<Template>, compoundId: Uuid)
    requires TemplatesUnique(ts)
    ensures TemplatesUnique(OfCompound(ts, compoundId))
  {
    if ts != [] {
      var init := ts[..|ts| - 1];
      var last := ts[|ts| - 1];
      assert TemplatesUnique(init);
      OfCompoundUnique(init, compoundId);
      var prev := OfCompound(init, compoundId);
      if last.compoundId == compoundId {
        forall i | 0 <= i < |prev|
          ensures prev[i].id != last.id && !(prev[i].compoundId == last.compoundId && prev[i].region == last.region)
        {
          assert prev[i] in init;
          var j :| 0 <= j < |init| && init[j] == prev[i];
          assert ts[j] == prev[i];
        }
      }
    }
  }

  /** `get_template`: the template with the id, or 404. */
  function GetTemplate(ts: seq<Template>, id: Uuid): (r: Result<Template, HttpError>)
    ensures r.Ok? <==> exists i :: 0 <= i < |ts| && ts[i].id == id
    ensures r.Ok? ==> r.value.id == id && r.value in ts
    ensures r.Err? ==> r.error == NotFoundError(id)
  {
    match TemplateById(ts, id)
    case Some(i) => Ok(ts[i])
    case None => Err(NotFoundError(id))
  }

  function NotFoundError(id: Uuid): HttpError {
    Fail(NotFound, "Template with id " + id + " not found")
  }

  /**
   * `create_template`: 400 when the compound already has a template for the
   * region; a compound id that names no compound breaks the foreign key at
   * commit (500); otherwise the new template is appended.
   */
  function CreateTemplateStep(cs: seq<Compound>, ts: seq<Template>, t: TemplateCreate, id: Uuid)
    : (r: (seq<Template>, Result<Template, HttpError>))
    ensures r.1.Err? ==> r.0 == ts
    ensures (exists i :: 0 <= i < |ts| && ts[i].compoundId == t.compoundId && ts[i].region == t.region) ==>
      r.1 == Err(Fail(BadRequest, "Template for compound " + t.compoundId + " and region " + RegionValue(t.region) + " already exists"))
    ensures r.1.Ok? <==>
      HasCompound(cs, t.compoundId) && forall i :: 0 <= i < |ts| ==> !(ts[i].compoundId == t.compoundId && ts[i].region == t.region)
    ensures r.1.Ok? ==> r.1.value == Template(id, t.compoundId, t.region, t.content, t.fieldMapping) && r.0 == ts + [r.1.value]
    ensures r.1.Err? && r.1.error.status != BadRequest ==> r.1.error == Unhandled
  {
    if TemplateFor(ts, t.compoundId, t.region).Some? then
      (ts, Err(Fail(BadRequest, "Template for compound " + t.compoundId + " and region " + RegionValue(t.region) + " already exists")))
    else if CompoundById(cs, t.compoundId).None? then
      (ts, Err(Unhandled))
    else
      var row := Template(id, t.compoundId, t.region, t.content, t.fieldMapping);
      (ts + [row], Ok(row))
  }

  /** Creating with a fresh id keeps the tables valid. */
  lemma CreateTemplateKeepsValid(cs: seq<Compound>, ts: seq<Template>, t: TemplateCreate, id: Uuid)
    requires TablesValid(cs, ts) && TemplateById(ts, id).None?
    ensures TablesValid(cs, CreateTemplateStep(cs, ts, t, id).0)
  {
  }

  method CreateTemplate(db: Database, t: TemplateCreate, id: Uuid) returns (r: Result<Template, HttpError>)
    modifies db
    ensures (db.templates, r) == CreateTemplateStep(old(db.compounds), old(db.templates), t, id)
    ensures db.compounds == old(db.compounds)
    ensures old(db.Valid()) && TemplateById(old(db.templates), id).None? ==> db.Valid()
  {
    if TemplateFor(db.templates, t.compoundId, t.region).Some? {
      return Err(Fail(BadRequest, "Template for compound " + t.compoundId + " and region " + RegionValue(t.region) + " already exists"));
    }
    if CompoundById(db.compounds, t.compoundId).None? {
      return Err(Unhandled);
    }
    var row := Template(id, t.compoundId, t.region, t.content, t.fieldMapping);
    db.templates := db.templates + [row];
    r := Ok(row);
  }

  /** One `setattr` of the update loop: an attribute the request set, with its value (null included). */
  datatype Assignment = SetContent(content: Option<string>) | SetMapping(mapping: Option<map<string, string>>)

  /** `template_update.dict(exclude_unset=True).items()`, in field order. */
  function Assignments(u: TemplateUpdate): (r: seq<Assignment>)
    ensures |r| <= 2
    ensures u.content.Some? <==> SetContent(if u.content.Some? then u.content.value else None) in r
    ensures u.fieldMapping.Some? <==> SetMapping(if u.fieldMapping.Some? then u.fieldMapping.value else None) in r
  {
    (if u.content.Some? then [SetContent(u.content.value)] else [])
    + (if u.fieldMapping.Some? then [SetMapping(u.fieldMapping.value)] else [])
  }

  /** The updatable attributes of the loaded template, before the commit checks them. */
  datatype Draft = Draft(content: Option<string>, mapping: Option<map<string, string>>)

  function Assign(d: Draft, a: Assignment): Draft {
    match a
    case SetContent(c) => d.(content := c)
    case SetMapping(m) => d.(mapping := m)
  }

  /** The draft after the assignments, applied in order. */
  function AssignAll(d: Draft, assignments: seq<Assignment>): Draft {
    if assignments == [] then d
    else Assign(AssignAll(d, assignments[..|assignments| - 1]), assignments[|assignments| - 1])
  }

  /** The loop's result: each attribute the request set takes the request's value, the others keep theirs. */
  lemma UpdatedDraft(d: Draft, u: TemplateUpdate)
    ensures AssignAll(d, Assignments(u)) ==
      Draft(if u.content.Some? then u.content.value else d.content,
            if u.fieldMapping.Some? then u.fieldMapping.value else d.mapping)
  {
    var a := Assignments(u);
    if u.content.Some? && u.fieldMapping.Some? {
      assert a[..1] == [SetContent(u.content.value)];
      assert a[..1][..0] == [];
    } else if a != [] {
      assert a[..0] == [];
    }
  }

  /**
   * `update_template`: 404 for an unknown id; otherwise the attributes the
   * request set are assigned, and the commit stores the row. An explicit
   * null content violates the column's NOT NULL at commit (500, nothing
   * stored).
   */
  function UpdateTemplateStep(ts: seq<Template>, id: Uuid, u: TemplateUpdate): (r: (seq<Template>, Result<Template, HttpError>))
    ensures r.1 == Err(NotFoundError(id)) <==> forall i :: 0 <= i < |ts| ==> ts[i].id != id
    ensures r.1.Err? ==> r.0 == ts
    ensures r.1.Err? && r.1.error != NotFoundError(id) ==> r.1.error == Unhandled && u.content == Some(None)
    ensures r.1.Ok? ==> exists i :: (0 <= i < |ts| && ts[i].id == id && r.0 == ts[i := r.1.value]
      && r.1.value.id == id && r.1.value.compoundId == ts[i].compoundId && r.1.value.region == ts[i].region
      && r.1.value.content == (if u.content.Some? && u.content.value.Some? then u.content.value.value else ts[i].content)
      && r.1.value.fieldMapping == (if u.fieldMapping.Some? then u.fieldMapping.value else ts[i].fieldMapping))
  {
    match TemplateById(ts, id)
    case None => (ts, Err(NotFoundError(id)))
    case Some(i) =>
      var t := ts[i];
      var d := AssignAll(Draft(Some(t.content), t.fieldMapping), Assignments(u));
      UpdatedDraft(Draft(Some(t.content), t.fieldMapping), u);
      match d.content
      case None => (ts, Err(Unhandled))
      case Some(c) =>
        var row := t.(content := c, fieldMapping := d.mapping);
        (ts[i := row], Ok(row))
  }

  /** An update that sets nothing leaves the table as it was. */
  lemma EmptyUpdateChangesNothing(ts: seq<Template>, id: Uuid)
    ensures UpdateTemplateStep(ts, id, TemplateUpdate(None, None)).0 == ts
  {
    var r := UpdateTemplateStep(ts, id, TemplateUpdate(None, None));
    if r.1.Ok? {
      var i :| 0 <= i < |ts| && ts[i].id == id && r.0 == ts[i := r.1.value]
        && r.1.value.id == id && r.1.value.compoundId == ts[i].compoundId && r.1.value.region == ts[i].region
        && r.1.value.content == ts[i].content && r.1.value.fieldMapping == ts[i].fieldMapping;
      assert r.1.value == ts[i];
    }
  }

  /** Updates never touch ids, compounds or regions, so they keep the tables valid. */
  lemma UpdateTemplateKeepsValid(cs: seq<Compound>, ts: seq<Template>, id: Uuid, u: TemplateUpdate)
    requires TablesValid(cs, ts)
    ensures TablesValid(cs, UpdateTemplateStep(ts, id, u).0)
  {
    var r := UpdateTemplateStep(ts, id, u);
    if r.1.Ok? {
      var i :| 0 <= i < |ts| && ts[i].id == id && r.0 == ts[i := r.1.value]
        && r.1.value.id == id && r.1.value.compoundId == ts[i].compoundId && r.1.value.region == ts[i].region;
      SameKeysValid(cs, ts, i, r.1.value);
    }
  }

  /** Replacing a template by one with the same id, compound and region keeps the tables valid. */
  lemma SameKeysValid(cs: seq<Compound>, ts: seq<Template>, i: nat, t: Template)
    requires TablesValid(cs, ts) && i < |ts|
    requires t.id == ts[i].id && t.compoundId == ts[i].compoundId && t.region == ts[i].region
    ensures TablesValid(cs, ts[i := t])
  {
    var r := ts[i := t];
    assert forall k :: 0 <= k < |ts| ==>
      r[k].id == ts[k].id && r[k].compoundId == ts[k].compoundId && r[k].region == ts[k].region;
  }

  method UpdateTemplate(db: Database, id: Uuid, u: TemplateUpdate) returns (r: Result<Template, HttpError>)
    modifies db
    ensures (db.templates, r) == UpdateTemplateStep(old(db.templates), id, u)
    ensures db.compounds == old(db.compounds)
  {
    var found := TemplateById(db.templates, id);
    if found.None? {
      return Err(NotFoundError(id));
    }
    var i := found.value;
    var start := Draft(Some(db.templates[i].content), db.templates[i].fieldMapping);
    var d := start;
    var assignments := Assignments(u);
    for k := 0 to |assignments|
      invariant d == AssignAll(start, assignments[..k])
    {
      assert assignments[..k + 1][..k] == assignments[..k];
      match assignments[k]
      case SetContent(c) => d := d.(content := c);
      case SetMapping(m) => d := d.(mapping := m);
    }
    assert assignments[..|assignments|] == assignments;
    if d.content.None? {
      return Err(Unhandled);
    }
    var row := db.templates[i].(content := d.content.value, fieldMapping := d.mapping);
    db.templates := db.templates[i := row];
    r := Ok(row);
  }

  /** `delete_template`: 404 for an unknown id, otherwise the template is removed. */
  function DeleteTemplateStep(ts: seq<Template>, id: Uuid): (r: (seq<Template>, Result<(), HttpError>))
    ensures r.1.Err? <==> forall i :: 0 <= i < |ts| ==> ts[i].id != id
    ensures r.1.Err? ==> r.0 == ts && r.1.error == NotFoundError(id)
    ensures r.1.Ok? ==> |r.0| == |ts| - 1 && exists i :: 0 <= i < |ts| && ts[i].id == id && r.0 == ts[..i] + ts[i + 1..]
  {
    match TemplateById(ts, id)
    case None => (ts, Err(NotFoundError(id)))
    case Some(i) => (ts[..i] + ts[i + 1..], Ok(()))
  }

  /** With unique ids, deleting removes exactly the template with the id and keeps every other. */
  lemma DeleteRemovesExactly(ts: seq<Template>, id: Uuid)
    requires TemplatesUnique(ts)
    ensures forall t :: t in DeleteTemplateStep(ts, id).0 <==> t in ts && t.id != id
  {
    var r := DeleteTemplateStep(ts, id);
    if r.1.Ok? {
      var i := TemplateById(ts, id).value;
      forall t ensures t in r.0 <==> t in ts && t.id != id {
        MembersWithout(ts, i, t);
      }
    }
  }

  /** Removing position `i` of uniquely keyed templates keeps exactly those with another id. */
  lemma MembersWithout(ts: seq<Template>, i: nat, t: Template)
    requires i < |ts| && TemplatesUnique(ts)
    ensures t in ts[..i] + ts[i + 1..] <==> t in ts && t.id != ts[i].id
  {
    var rest := ts[..i] + ts[i + 1..];
    if t in ts && t.id != ts[i].id {
      var j :| 0 <= j < |ts| && ts[j] == t;
      if j < i { assert rest[j] == t; } else { assert rest[j - 1] == t; }
    }
    if t in rest {
      var j :| 0 <= j < |rest| && rest[j] == t;
      if j < i { assert ts[j] == t; } else { assert ts[j + 1] == t; }
    }
  }

  method DeleteTemplate(db: Database, id: Uuid) returns (r: Result<(), HttpError>)
    modifies db
    ensures (db.templates, r) == DeleteTemplateStep(old(db.templates), id)
    ensures db.compounds == old(db.compounds)
  {
    var found := TemplateById(db.templates, id);
    if found.None? {
      return Err(NotFoundError(id));
    }
    db.templates := db.templates[..found.value] + db.templates[found.value + 1..];
    r := Ok(());
  }
}
