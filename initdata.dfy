// The seeding script: the three default compounds, a template per compound
// and region, and the rollback when seeding fails.
module InitData {
  import opened Wrappers
  import opened Models
  import opened Catalog

  /** The compounds the script seeds, in order. */
  const ScriptDefaults: seq<Seed> := [
    Seed("BGB-21447", "BGB-21447 Compound", "BeiGene compound BGB-21447 for COA processing"),
    Seed("BGB-16673", "BGB-16673 Compound", "BeiGene compound BGB-16673 for COA processing"),
    Seed("BGB-43395", "BGB-43395 Compound", "BeiGene compound BGB-43395 for COA processing")]

  /** `for region in RegionEnum`: the members in declaration order. */
  const Regions: seq<Region> := [CN, EU, US]

  lemma RegionsComplete(region: Region)
    ensures region in Regions
  {
  }

  /** The certificate text a new template of the region gets. */
  function RegionContent(region: Region): string {
    match region
    case CN =>
      "【分析证书】\n化合物编号：{compound_code}\n批号：{lot_number}\n生产商：{manufacturer}\n储存条件：{storage_condition}\n\n"
      + "检测项目：\n- 外观：符合标准\n- 纯度：≥98%\n- 水分：≤0.5%\n\n结论：合格"
    case EU =>
      "CERTIFICATE OF ANALYSIS\nCompound: {compound_code}\nLot Number: {lot_number}\nManufacturer: {manufacturer}\n"
      + "Storage Condition: {storage_condition}\n\nTest Results:\n- Appearance: Conforms\n- Purity: ≥98%\n"
      + "- Water Content: ≤0.5%\n\nConclusion: Pass"
    case US =>
      "CERTIFICATE OF ANALYSIS\nProduct Code: {compound_code}\nBatch/Lot No.: {lot_number}\nManufactured by: {manufacturer}\n"
      + "Storage Requirements: {storage_condition}\n\nAnalysis Results:\n- Physical Appearance: Meets specifications\n"
      + "- Assay (HPLC): ≥98.0%\n- Moisture Content: ≤0.5%\n\nQuality Status: APPROVED"
  }

  /** The field mapping every seeded template gets: each field to its placeholder. */
  const DefaultMapping: map<string, string> := map[
    "compound_code" := "{compound_code}",
    "lot_number" := "{lot_number}",
    "manufacturer" := "{manufacturer}",
    "storage_condition" := "{storage_condition}"]

  /** A template of the compound for the region, with the given text and mapping. */
  function NewTemplate(id: Uuid, c: Compound, region: Region, texts: Region -> string, mapping: map<string, string>): Template {
    Template(id, c.id, region, texts(region), Some(mapping))
  }

  /** A template as the script creates it: its region's text and the mapping. */
  predicate IsSeeded(t: Template, texts: Region -> string, mapping: map<string, string>) {
    t.content == texts(t.region) && t.fieldMapping == Some(mapping)
  }

  /**
   * The inner loop for one compound: each region without a template for the
   * compound gets a new one. The lookup here runs over the table as it grows;
   * the session, which does not flush before a query, sees only the committed
   * table, which finds the same rows because each region is looked up once
   * per compound. The seeding texts and
   * mapping are parameters; the script passes `RegionContent` and
   * `DefaultMapping`.
   */
  function SeedRegions(ts: seq<Template>, c: Compound, regions: seq<Region>, ids: seq<Uuid>,
                       texts: Region -> string, mapping: map<string, string>): (r: seq<Template>)
    requires |ids| == |regions|
    ensures |ts| <= |r| && forall i :: 0 <= i < |ts| ==> r[i] == ts[i]
    ensures Covers(r, c.id, regions)
    ensures forall i :: |ts| <= i < |r| ==> IsSeeded(r[i], texts, mapping) && r[i].compoundId == c.id
    decreases |regions|
  {
    if regions == [] then ts
    else
      var n := |regions| - 1;
      var prev := SeedRegions(ts, c, regions[..n], ids[..n], texts, mapping);
      if TemplateFor(prev, c.id, regions[n]).Some? then
        CoversOneMore(prev, prev, c.id, regions);
        prev
      else
        var after := prev + [NewTemplate(ids[n], c, regions[n], texts, mapping)];
        assert after[|prev|].compoundId == c.id && after[|prev|].region == regions[n];
        CoversOneMore(prev, after, c.id, regions);
        after
  }

  /** Every region listed has a template of the compound. */
  predicate Covers(ts: seq<Template>, compoundId: Uuid, regions: seq<Region>) {
    forall j :: 0 <= j < |regions| ==> TemplateFor(ts, compoundId, regions[j]).Some?
  }

  /** Coverage of all but the last region, in a table that extends to cover the last one too. */
  lemma CoversOneMore(ts: seq<Template>, r: seq<Template>, compoundId: Uuid, regions: seq<Region>)
    requires regions != [] && Covers(ts, compoundId, regions[..|regions| - 1])
    requires |ts| <= |r| && forall i :: 0 <= i < |ts| ==> r[i] == ts[i]
    requires TemplateFor(r, compoundId, regions[|regions| - 1]).Some?
    ensures Covers(r, compoundId, regions)
  {
    var n := |regions| - 1;
    forall j | 0 <= j < n ensures TemplateFor(r, compoundId, regions[j]).Some? {
      assert regions[..n][j] == regions[j];
      FoundInExtension(ts, r, compoundId, regions[j]);
    }
  }

  /** One more region: the inner loop's step. */
  lemma SeedRegionsUnfold(ts: seq<Template>, c: Compound, regions: seq<Region>, ids: seq<Uuid>,
                          texts: Region -> string, mapping: map<string, string>, j: nat)
    requires |ids| == |regions| && j < |regions|
    ensures var prev := SeedRegions(ts, c, regions[..j], ids[..j], texts, mapping);
      SeedRegions(ts, c, regions[..j + 1], ids[..j + 1], texts, mapping) ==
        if TemplateFor(prev, c.id, regions[j]).Some? then prev
        else prev + [NewTemplate(ids[j], c, regions[j], texts, mapping)]
  {
    assert regions[..j + 1][..j] == regions[..j] && ids[..j + 1][..j] == ids[..j];
  }

  /** A template found in a table is still found in a table that extends it. */
  lemma FoundInExtension(ts: seq<Template>, r: seq<Template>, compoundId: Uuid, region: Region)
    requires TemplateFor(ts, compoundId, region).Some?
    requires |ts| <= |r| && forall i :: 0 <= i < |ts| ==> r[i] == ts[i]
    ensures TemplateFor(r, compoundId, region).Some?
  {
    var i := TemplateFor(ts, compoundId, region).value;
    assert r[i] == ts[i];
  }

  /** Template ids for each compound, one per region. */
  predicate IdsShaped(cs: seq<Compound>, regions: seq<Region>, ids: seq<seq<Uuid>>) {
    |ids| == |cs| && forall k :: 0 <= k < |ids| ==> |ids[k]| == |regions|
  }

  /**
   * `create_default_templates`: the outer loop over the compounds. Gives the
   * templates table after.
   */
  function SeedTemplates(ts: seq<Template>, cs: seq<Compound>, regions: seq<Region>, ids: seq<seq<Uuid>>,
                         texts: Region -> string, mapping: map<string, string>): (r: seq<Template>)
    requires IdsShaped(cs, regions, ids)
    ensures |ts| <= |r| && forall i :: 0 <= i < |ts| ==> r[i] == ts[i]
    ensures forall i :: |ts| <= i < |r| ==> IsSeeded(r[i], texts, mapping) && HasCompound(cs, r[i].compoundId)
    ensures forall k :: 0 <= k < |cs| ==> Covers(r, cs[k].id, regions)
    decreases |cs|
  {
    if cs == [] then ts
    else
      var n := |cs| - 1;
      var prev := SeedTemplates(ts, cs[..n], regions, ids[..n], texts, mapping);
      var after := SeedRegions(prev, cs[n], regions, ids[n], texts, mapping);
      assert forall i :: |ts| <= i < |after| ==> HasCompound(cs, after[i].compoundId) by {
        forall i | |ts| <= i < |after| ensures HasCompound(cs, after[i].compoundId) {
          if i < |prev| {
            assert after[i] == prev[i];
            HasCompoundInPrefix(cs, n, prev[i].compoundId);
          } else {
            assert cs[n].id == after[i].compoundId;
          }
        }
      }
      CompoundsCoveredOneMore(prev, after, cs, cs[..n], regions);
      after
  }

  lemma HasCompoundInPrefix(cs: seq<Compound>, n: nat, id: Uuid)
    requires n <= |cs| && HasCompound(cs[..n], id)
    ensures HasCompound(cs, id)
  {
    var k :| 0 <= k < n && cs[..n][k].id == id;
    assert cs[k] == cs[..n][k];
  }

  /** One more compound: the outer loop's step. */
  lemma SeedTemplatesUnfold(ts: seq<Template>, cs: seq<Compound>, regions: seq<Region>, ids: seq<seq<Uuid>>,
                            texts: Region -> string, mapping: map<string, string>, k: nat)
    requires IdsShaped(cs, regions, ids) && k < |cs|
    ensures SeedTemplates(ts, cs[..k + 1], regions, ids[..k + 1], texts, mapping)
      == SeedRegions(SeedTemplates(ts, cs[..k], regions, ids[..k], texts, mapping), cs[k], regions, ids[k], texts, mapping)
  {
    assert cs[..k + 1][..k] == cs[..k] && ids[..k + 1][..k] == ids[..k];
  }

  /** Coverage of all but the last compound, in a table that extends to cover the last one too. */
  lemma CompoundsCoveredOneMore(ts: seq<Template>, r: seq<Template>, cs: seq<Compound>, earlier: seq<Compound>, regions: seq<Region>)
    requires cs != [] && earlier == cs[..|cs| - 1]
    requires forall k :: 0 <= k < |earlier| ==> Covers(ts, earlier[k].id, regions)
    requires |ts| <= |r| && forall i :: 0 <= i < |ts| ==> r[i] == ts[i]
    requires Covers(r, cs[|cs| - 1].id, regions)
    ensures forall k :: 0 <= k < |cs| ==> Covers(r, cs[k].id, regions)
  {
    var n := |cs| - 1;
    forall k | 0 <= k < n ensures Covers(r, cs[k].id, regions) {
      assert earlier[k] == cs[k];
      CoversInExtension(ts, r, cs[k].id, regions);
    }
  }

  /** Coverage survives appending rows. */
  lemma CoversInExtension(ts: seq<Template>, r: seq<Template>, compoundId: Uuid, regions: seq<Region>)
    requires Covers(ts, compoundId, regions)
    requires |ts| <= |r| && forall i :: 0 <= i < |ts| ==> r[i] == ts[i]
    ensures Covers(r, compoundId, regions)
  {
    forall j | 0 <= j < |regions| ensures TemplateFor(r, compoundId, regions[j]).Some? {
      FoundInExtension(ts, r, compoundId, regions[j]);
    }
  }

  /** When every region of the compound already has a template, the inner loop adds nothing. */
  lemma {:induction false} NoRegionToSeed(ts: seq<Template>, c: Compound, regions: seq<Region>, ids: seq<Uuid>,
                                          texts: Region -> string, mapping: map<string, string>)
    requires |ids| == |regions|
    requires Covers(ts, c.id, regions)
    ensures SeedRegions(ts, c, regions, ids, texts, mapping) == ts
    decreases |regions|
  {
    if regions != [] {
      var n := |regions| - 1;
      NoRegionToSeed(ts, c, regions[..n], ids[..n], texts, mapping);
    }
  }

  /** Seeding a table in which every compound already has every region's template changes nothing. */
  lemma {:induction false} NothingToSeedTemplates(ts: seq<Template>, cs: seq<Compound>, regions: seq<Region>, ids: seq<seq<Uuid>>,
                                                  texts: Region -> string, mapping: map<string, string>)
    requires IdsShaped(cs, regions, ids)
    requires forall k :: 0 <= k < |cs| ==> Covers(ts, cs[k].id, regions)
    ensures SeedTemplates(ts, cs, regions, ids, texts, mapping) == ts
    decreases |cs|
  {
    if cs != [] {
      var n := |cs| - 1;
      NothingToSeedTemplates(ts, cs[..n], regions, ids[..n], texts, mapping);
      NoRegionToSeed(ts, cs[n], regions, ids[n], texts, mapping);
    }
  }

  /** Seeding templates twice adds nothing the second time. */
  lemma SeedTemplatesIdempotent(ts: seq<Template>, cs: seq<Compound>, regions: seq<Region>, ids: seq<seq<Uuid>>, ids2: seq<seq<Uuid>>,
                                texts: Region -> string, mapping: map<string, string>)
    requires IdsShaped(cs, regions, ids) && IdsShaped(cs, regions, ids2)
    ensures var after := SeedTemplates(ts, cs, regions, ids, texts, mapping); SeedTemplates(after, cs, regions, ids2, texts, mapping) == after
  {
    var after := SeedTemplates(ts, cs, regions, ids, texts, mapping);
    NothingToSeedTemplates(after, cs, regions, ids2, texts, mapping);
  }

  /** At most one template per compound and region (the half of `TemplatesUnique` the seeding check maintains). */
  predicate OnePerRegion(ts: seq<Template>) {
    forall i, j :: 0 <= i < j < |ts| ==> !(ts[i].compoundId == ts[j].compoundId && ts[i].region == ts[j].region)
  }

  /** The inner loop keeps a compound's templates one per region. */
  lemma {:induction false} SeedRegionsKeepsOnePerRegion(ts: seq<Template>, c: Compound, regions: seq<Region>, ids: seq<Uuid>,
                                                        texts: Region -> string, mapping: map<string, string>)
    requires |ids| == |regions| && OnePerRegion(ts)
    ensures OnePerRegion(SeedRegions(ts, c, regions, ids, texts, mapping))
    decreases |regions|
  {
    if regions != [] {
      var n := |regions| - 1;
      var prev := SeedRegions(ts, c, regions[..n], ids[..n], texts, mapping);
      SeedRegionsKeepsOnePerRegion(ts, c, regions[..n], ids[..n], texts, mapping);
      if TemplateFor(prev, c.id, regions[n]).None? {
        var t := NewTemplate(ids[n], c, regions[n], texts, mapping);
        assert t.compoundId == c.id && t.region == regions[n];
        AppendKeepsOnePerRegion(prev, t);
      }
    }
  }

  /** A template for a compound and region not yet present keeps the table one per region. */
  lemma AppendKeepsOnePerRegion(ts: seq<Template>, t: Template)
    requires OnePerRegion(ts)
    requires forall i :: 0 <= i < |ts| ==> !(ts[i].compoundId == t.compoundId && ts[i].region == t.region)
    ensures OnePerRegion(ts + [t])
  {
    var r := ts + [t];
    forall i, j | 0 <= i < j < |r| ensures !(r[i].compoundId == r[j].compoundId && r[i].region == r[j].region) {
      assert r[i] == ts[i];
      if j < |ts| { assert r[j] == ts[j]; } else { assert r[j] == t; }
    }
  }

  /** Seeding never creates a second template for a compound and region. */
  lemma {:induction false} SeedTemplatesKeepsOnePerRegion(ts: seq<Template>, cs: seq<Compound>, regions: seq<Region>, ids: seq<seq<Uuid>>,
                                                          texts: Region -> string, mapping: map<string, string>)
    requires IdsShaped(cs, regions, ids) && OnePerRegion(ts)
    ensures OnePerRegion(SeedTemplates(ts, cs, regions, ids, texts, mapping))
    decreases |cs|
  {
    if cs != [] {
      var n := |cs| - 1;
      SeedTemplatesKeepsOnePerRegion(ts, cs[..n], regions, ids[..n], texts, mapping);
      SeedRegionsKeepsOnePerRegion(SeedTemplates(ts, cs[..n], regions, ids[..n], texts, mapping), cs[n], regions, ids[n], texts, mapping);
    }
  }

  /** `create_default_compounds` */
  method CreateDefaultCompounds(db: Database, ids: seq<Uuid>) returns (r: seq<Compound>)
    requires |ids| == |ScriptDefaults|
    modifies db
    ensures db.compounds == SeedCompounds(old(db.compounds), ScriptDefaults, ids).0
    ensures r == SeedCompounds(old(db.compounds), ScriptDefaults, ids).2
    ensures db.templates == old(db.templates)
  {
    var _, resolved := SeedLoop(db, ScriptDefaults, ids);
    r := resolved;
  }

  /**
   * The inner loop of `create_default_templates`: the regions of one
   * compound, each with its text and the mapping.
   */
  method CreateCompoundTemplates(db: Database, c: Compound, regions: seq<Region>, ids: seq<Uuid>,
                                 texts: Region -> string, mapping: map<string, string>)
    requires |ids| == |regions|
    modifies db
    ensures db.templates == SeedRegions(old(db.templates), c, regions, ids, texts, mapping)
    ensures db.compounds == old(db.compounds)
  {
    ghost var before := db.templates;
    for j := 0 to |regions|
      invariant db.templates == SeedRegions(before, c, regions[..j], ids[..j], texts, mapping)
      invariant db.compounds == old(db.compounds)
    {
      SeedRegionsUnfold(before, c, regions, ids, texts, mapping, j);
      if TemplateFor(db.templates, c.id, regions[j]).None? {
        db.templates := db.templates + [NewTemplate(ids[j], c, regions[j], texts, mapping)];
      }
    }
    assert regions[..|regions|] == regions;
    assert ids[..|ids|] == ids;
  }

  /** `create_default_templates`: compounds × regions, in that nesting. */
  method CreateDefaultTemplates(db: Database, cs: seq<Compound>, ids: seq<seq<Uuid>>)
    requires IdsShaped(cs, Regions, ids)
    modifies db
    ensures db.templates == SeedTemplates(old(db.templates), cs, Regions, ids, RegionContent, DefaultMapping)
    ensures db.compounds == old(db.compounds)
  {
    ghost var start := db.templates;
    for k := 0 to |cs|
      invariant db.templates == SeedTemplates(start, cs[..k], Regions, ids[..k], RegionContent, DefaultMapping)
      invariant db.compounds == old(db.compounds)
    {
      SeedTemplatesUnfold(start, cs, Regions, ids, RegionContent, DefaultMapping, k);
      CreateCompoundTemplates(db, cs[k], Regions, ids[k], RegionContent, DefaultMapping);
    }
    assert cs[..|cs|] == cs;
    assert ids[..|ids|] == ids;
  }

  /** Where seeding fails, if it does: the compounds' commit or the templates'. */
  datatype Failure = NoFailure | CompoundsFail(message: string) | TemplatesFail(message: string)

  /**
   * `main`: seed the compounds (committed on their own), then the templates;
   * an error rolls back what is not yet committed and is raised again.
   * Gives the compounds and templates tables after, and the outcome.
   */
  function SeedDatabaseStep(cs: seq<Compound>, ts: seq<Template>, compoundIds: seq<Uuid>, templateIds: seq<seq<Uuid>>, failure: Failure)
    : (r: (seq<Compound>, seq<Template>, Result<(), string>))
    requires |compoundIds| == |ScriptDefaults| && |templateIds| == |ScriptDefaults|
    requires forall k :: 0 <= k < |templateIds| ==> |templateIds[k]| == |Regions|
    ensures r.2.Ok? <==> failure.NoFailure?
    ensures failure.CompoundsFail? ==> r == (cs, ts, Err(failure.message))
    ensures failure.TemplatesFail? ==> r.1 == ts && r.2 == Err(failure.message)
    ensures !failure.CompoundsFail? ==> forall k :: 0 <= k < |ScriptDefaults| ==> CompoundByCode(r.0, ScriptDefaults[k].code).Some?
    ensures |cs| <= |r.0| && (forall i :: 0 <= i < |cs| ==> r.0[i] == cs[i])
    ensures |ts| <= |r.1| && forall i :: 0 <= i < |ts| ==> r.1[i] == ts[i]
  {
    var seeded := SeedCompounds(cs, ScriptDefaults, compoundIds);
    SeedsPresent(cs, ScriptDefaults, compoundIds);
    match failure
    case CompoundsFail(m) => (cs, ts, Err(m))
    case TemplatesFail(m) => (seeded.0, ts, Err(m))
    case NoFailure => (seeded.0, SeedTemplates(ts, seeded.2, Regions, templateIds, RegionContent, DefaultMapping), Ok(()))
  }

  /**
   * A run that failed while seeding templates leaves the compounds committed;
   * running again finishes the job exactly as a run that had not failed.
   */
  lemma RerunAfterTemplateFailure(cs: seq<Compound>, ts: seq<Template>, compoundIds: seq<Uuid>, compoundIds2: seq<Uuid>,
                                  templateIds: seq<seq<Uuid>>, m: string)
    requires |compoundIds| == |ScriptDefaults| && |compoundIds2| == |ScriptDefaults| && |templateIds| == |ScriptDefaults|
    requires forall k :: 0 <= k < |templateIds| ==> |templateIds[k]| == |Regions|
    requires CompoundsUnique(cs) && FreshIds(cs, compoundIds)
    ensures var failed := SeedDatabaseStep(cs, ts, compoundIds, templateIds, TemplatesFail(m));
      SeedDatabaseStep(failed.0, failed.1, compoundIds2, templateIds, NoFailure)
      == SeedDatabaseStep(cs, ts, compoundIds, templateIds, NoFailure)
  {
    ReseedingResolvesAlike(cs, ScriptDefaults, compoundIds, compoundIds2);
  }

  method SeedDatabase(db: Database, compoundIds: seq<Uuid>, templateIds: seq<seq<Uuid>>, failure: Failure)
    returns (r: Result<(), string>)
    requires |compoundIds| == |ScriptDefaults| && |templateIds| == |ScriptDefaults|
    requires forall k :: 0 <= k < |templateIds| ==> |templateIds[k]| == |Regions|
    modifies db
    ensures (db.compounds, db.templates, r) == SeedDatabaseStep(old(db.compounds), old(db.templates), compoundIds, templateIds, failure)
  {
    var snapshot := db.compounds;
    var templatesSnapshot := db.templates;
    var compounds := CreateDefaultCompounds(db, compoundIds);
    if failure.CompoundsFail? {
      db.compounds := snapshot;
      return Err(failure.message);
    }
    // The compounds are committed; a later rollback restores the templates only.
    CreateDefaultTemplates(db, compounds, templateIds);
    if failure.TemplatesFail? {
      db.templates := templatesSnapshot;
      return Err(failure.message);
    }
    r := Ok(());
  }
}
