/**
 * `sort_report_objects_by_type`, `parse_reports` and `parse_reports_relationships`:
 * report objects split into main and sub lists, main reports turned into entities,
 * and each entity's related entries filled in place.
 */
module Reports {
  import opened Wrappers
  import opened Strings
  import opened Stix

  // ---------------------------------------------------------------------------
  // sort_report_objects_by_type (150-170)
  // ---------------------------------------------------------------------------

  /** `n` copies of `o`. */
  function Repeat(o: StixObject, n: nat): (r: seq<StixObject>)
    ensures |r| == n
    ensures forall x | x in r :: x == o
  {
    if n == 0 then [] else Repeat(o, n - 1) + [o]
  }

  /** How many of `refs` start with `report`. */
  function ReportRefCount(refs: seq<string>): nat {
    if refs == [] then 0
    else ReportRefCount(refs[..|refs| - 1]) + (if StartsWith(refs[|refs| - 1], "report") then 1 else 0)
  }

  /** How many of `refs` do not start with `report`. */
  function OtherRefCount(refs: seq<string>): nat {
    if refs == [] then 0
    else OtherRefCount(refs[..|refs| - 1]) + (if StartsWith(refs[|refs| - 1], "report") then 0 else 1)
  }

  /** The main list: each object once per `report` reference it holds. */
  function MainReports(objs: seq<StixObject>): seq<StixObject> {
    if objs == [] then []
    else MainReports(objs[..|objs| - 1]) + Repeat(objs[|objs| - 1], ReportRefCount(objs[|objs| - 1].objectRefs))
  }

  /** The sub list: each object once per other reference it holds. */
  function SubReports(objs: seq<StixObject>): seq<StixObject> {
    if objs == [] then []
    else SubReports(objs[..|objs| - 1]) + Repeat(objs[|objs| - 1], OtherRefCount(objs[|objs| - 1].objectRefs))
  }

  /**
   * Lines 159-170. The `continue` at 166 only skips the append to the sub list; the
   * loop over the references goes on, so an object is appended once per reference.
   */
  method SortReportObjectsByType(objects: seq<StixObject>) returns (mainReportObjects: seq<StixObject>, subReportObjects: seq<StixObject>)
    ensures mainReportObjects == MainReports(objects)
    ensures subReportObjects == SubReports(objects)
  {
    mainReportObjects := [];
    subReportObjects := [];
    for i := 0 to |objects|
      invariant mainReportObjects == MainReports(objects[..i])
      invariant subReportObjects == SubReports(objects[..i])
    {
      var obj := objects[i];
      var refs := obj.objectRefs;
      for j := 0 to |refs|
        invariant mainReportObjects == MainReports(objects[..i]) + Repeat(obj, ReportRefCount(refs[..j]))
        invariant subReportObjects == SubReports(objects[..i]) + Repeat(obj, OtherRefCount(refs[..j]))
      {
        RefCountsStep(refs, j);
        if StartsWith(refs[j], "report") {
          mainReportObjects := mainReportObjects + [obj];
          assert Repeat(obj, ReportRefCount(refs[..j + 1])) == Repeat(obj, ReportRefCount(refs[..j])) + [obj];
          continue;
        }
        subReportObjects := subReportObjects + [obj];
        assert Repeat(obj, OtherRefCount(refs[..j + 1])) == Repeat(obj, OtherRefCount(refs[..j])) + [obj];
      }
      assert refs[..|refs|] == refs;
      assert objects[..i + 1][..i] == objects[..i];
    }
    assert objects[..|objects|] == objects;
  }

  lemma RefCountsStep(refs: seq<string>, j: nat)
    requires j < |refs|
    ensures ReportRefCount(refs[..j + 1]) == ReportRefCount(refs[..j]) + (if StartsWith(refs[j], "report") then 1 else 0)
    ensures OtherRefCount(refs[..j + 1]) == OtherRefCount(refs[..j]) + (if StartsWith(refs[j], "report") then 0 else 1)
  {
    assert refs[..j + 1][..j] == refs[..j];
  }

  function TotalRefs(objs: seq<StixObject>): nat {
    if objs == [] then 0 else TotalRefs(objs[..|objs| - 1]) + |objs[|objs| - 1].objectRefs|
  }

  lemma {:induction false} RefCountsSplit(refs: seq<string>)
    ensures ReportRefCount(refs) + OtherRefCount(refs) == |refs|
  {
    if refs != [] {
      RefCountsSplit(refs[..|refs| - 1]);
    }
  }

  /** Every reference produces exactly one append: the two lists together are as long as all the references. */
  lemma {:induction false} SortedTotal(objs: seq<StixObject>)
    ensures |MainReports(objs)| + |SubReports(objs)| == TotalRefs(objs)
  {
    if objs != [] {
      SortedTotal(objs[..|objs| - 1]);
      RefCountsSplit(objs[|objs| - 1].objectRefs);
    }
  }

  lemma {:induction false} ReportRefCountPositive(refs: seq<string>)
    ensures ReportRefCount(refs) > 0 <==> exists r :: r in refs && StartsWith(r, "report")
    ensures OtherRefCount(refs) > 0 <==> exists r :: r in refs && !StartsWith(r, "report")
  {
    if refs != [] {
      var front := refs[..|refs| - 1];
      ReportRefCountPositive(front);
      assert refs == front + [refs[|refs| - 1]];
    }
  }

  /**
   * An object is in the main list exactly when it holds a `report` reference, and in the
   * sub list exactly when it holds some other reference; with no references it is in neither.
   */
  lemma {:induction false} SortedMembership(objs: seq<StixObject>, x: StixObject)
    ensures x in MainReports(objs) <==> x in objs && exists r :: r in x.objectRefs && StartsWith(r, "report")
    ensures x in SubReports(objs) <==> x in objs && exists r :: r in x.objectRefs && !StartsWith(r, "report")
  {
    ReportRefCountPositive(x.objectRefs);
    if objs != [] {
      var front := objs[..|objs| - 1];
      SortedMembership(front, x);
      assert objs == front + [objs[|objs| - 1]];
    }
  }

  /** Each copy of an object in the input appears in the main list once per `report` reference. */
  lemma {:induction false} MainMultiplicity(objs: seq<StixObject>, x: StixObject)
    ensures multiset(MainReports(objs))[x] == multiset(objs)[x] * ReportRefCount(x.objectRefs)
  {
    if objs != [] {
      var front := objs[..|objs| - 1];
      var last := objs[|objs| - 1];
      assert objs == front + [last];
      MainMultiplicity(front, x);
      MainSnocMultiplicity(front, last, x);
      MulStep(multiset(front)[x], ReportRefCount(x.objectRefs), last == x);
    }
  }

  lemma MainSnocMultiplicity(front: seq<StixObject>, last: StixObject, x: StixObject)
    ensures multiset(MainReports(front + [last]))[x] ==
      multiset(MainReports(front))[x] + (if last == x then ReportRefCount(x.objectRefs) else 0)
    ensures multiset(front + [last])[x] == multiset(front)[x] + (if last == x then 1 else 0)
  {
    var objs := front + [last];
    assert objs[..|objs| - 1] == front;
    var copies := Repeat(last, ReportRefCount(last.objectRefs));
    assert MainReports(objs) == MainReports(front) + copies;
    RepeatMultiplicity(last, ReportRefCount(last.objectRefs), x);
  }

  lemma MulStep(a: int, c: int, inc: bool)
    ensures (a + (if inc then 1 else 0)) * c == a * c + (if inc then c else 0)
  {
  }

  lemma {:induction false} RepeatMultiplicity(o: StixObject, n: nat, x: StixObject)
    ensures multiset(Repeat(o, n))[x] == if o == x then n else 0
  {
    if n > 0 {
      RepeatMultiplicity(o, n - 1, x);
    }
  }

  // ---------------------------------------------------------------------------
  // parse_reports (173-213)
  // ---------------------------------------------------------------------------

  /** The `fields` dictionary of a report entity; a key not yet set is `None`. */
  datatype ReportFields = ReportFields(
    stixId: Id,
    published: Option<string>,
    stixDescription: string,
    reportedBy: string,
    tags: seq<string>,
    trafficLightProtocol: Option<string>,
    feedRelatedIndicators: Option<seq<RelatedEntry>>)

  /** The part of the report's `rawJSON` that the enrichment reads. */
  datatype ReportRawJSON = ReportRawJSON(unit42ObjectRefs: seq<string>)

  /**
   * A report entity. `id` is the dictionary's top-level `id` key, read at line 252;
   * `None` when the key is absent.
   */
  datatype Report = Report(id: Id, entityType: string, value: Option<string>, fields: ReportFields, rawJSON: ReportRawJSON)

  /** The entity of lines 187-209: it has no top-level `id` key, only `fields.stixid`. */
  function NewReport(o: StixObject, feedTags: seq<string>, tlpColor: Option<string>): Report {
    Report(None, StixReport, o.name,
      ReportFields(o.id, o.published, o.description.GetOr(""), ReportedBy, Tags(o.labels, feedTags), TrafficLight(tlpColor), None),
      ReportRawJSON(o.objectRefs))
  }

  /**
   * What the source promises of the entity it builds for `o`, apart from its related
   * entries: no top-level id, type `STIX Report`, the object's name, id, published date,
   * description (`''` when absent) and references, reported by `Unit42`, the labels and
   * feed tags without repetition (in the model's fixed order), and a traffic-light field
   * exactly when `tlp_color` is truthy.
   */
  ghost predicate ReportBuiltFrom(r: Report, o: StixObject, feedTags: seq<string>, tlpColor: Option<string>) {
    && r.id.None?
    && r.entityType == StixReport
    && r.value == o.name
    && r.fields.stixId == o.id
    && r.fields.published == o.published
    && r.fields.stixDescription == (if o.description.Some? then o.description.value else "")
    && r.fields.reportedBy == ReportedBy
    && r.fields.tags == Tags(o.labels, feedTags)
    && NoDup(r.fields.tags) && (forall t :: t in r.fields.tags <==> t in o.labels || t in feedTags)
    && (r.fields.trafficLightProtocol.Some? <==> tlpColor.Some? && tlpColor.value != "")
    && (r.fields.trafficLightProtocol.Some? ==> r.fields.trafficLightProtocol == tlpColor)
    && r.rawJSON.unit42ObjectRefs == o.objectRefs
  }

  /** The entity `parse_reports` builds: as above, with no related entries yet. */
  ghost predicate DescribesReport(r: Report, o: StixObject, feedTags: seq<string>, tlpColor: Option<string>) {
    ReportBuiltFrom(r, o, feedTags, tlpColor) && r.fields.feedRelatedIndicators.None?
  }

  /** Lines 184-213: one entity per input object, in order, duplicates kept. */
  method ParseReports(reportObjects: seq<StixObject>, feedTags: seq<string>, tlpColor: Option<string>) returns (reports: seq<Report>)
    ensures |reports| == |reportObjects|
    ensures forall i | 0 <= i < |reports| :: reports[i] == NewReport(reportObjects[i], feedTags, tlpColor)
    ensures forall i | 0 <= i < |reports| :: DescribesReport(reports[i], reportObjects[i], feedTags, tlpColor)
  {
    reports := [];
    for i := 0 to |reportObjects|
      invariant |reports| == i
      invariant forall k | 0 <= k < i :: reports[k] == NewReport(reportObjects[k], feedTags, tlpColor)
    {
      var reportObject := reportObjects[i];
      var fields := ReportFields(reportObject.id, reportObject.published, reportObject.description.GetOr(""),
                                 ReportedBy, Tags(reportObject.labels, feedTags), None, None);
      if tlpColor.Some? && tlpColor.value != "" {
        fields := fields.(trafficLightProtocol := tlpColor);
      }
      var report := Report(None, StixReport, reportObject.name, fields, ReportRawJSON(reportObject.objectRefs));
      reports := reports + [report];
    }
  }

  // ---------------------------------------------------------------------------
  // parse_reports_relationships (216-293)
  // ---------------------------------------------------------------------------

  /** `[x for x in refs if x.startswith(prefix)]`. */
  function WithPrefix(refs: seq<string>, prefix: string): (r: seq<string>)
    ensures forall x :: x in r <==> x in refs && StartsWith(x, prefix)
  {
    if refs == [] then []
    else
      var front := refs[..|refs| - 1];
      assert refs == front + [refs[|refs| - 1]];
      WithPrefix(front, prefix) + (if StartsWith(refs[|refs| - 1], prefix) then [refs[|refs| - 1]] else [])
  }

  /** The test at 236: the sub-report's id is among the report's `report` references. */
  predicate IsSubReportOf(sub: StixObject, refs: seq<string>) {
    sub.id.Some? && sub.id.value in WithPrefix(refs, "report")
  }

  /** `report_malware_list` after the loop of 235-239 has visited `subReports`. */
  function MalwareIds(refs: seq<string>, subReports: seq<StixObject>): seq<string> {
    if subReports == [] then []
    else
      var sub := subReports[|subReports| - 1];
      MalwareIds(refs, subReports[..|subReports| - 1])
        + (if IsSubReportOf(sub, refs) then WithPrefix(sub.objectRefs, "malware") else [])
  }

  /** Lines 230-239: the malware references of the sub-reports this report refers to. */
  method CollectReportMalware(refs: seq<string>, subReports: seq<StixObject>) returns (reportMalwareList: seq<string>)
    ensures reportMalwareList == MalwareIds(refs, subReports)
  {
    var relatedSubReports := WithPrefix(refs, "report");
    reportMalwareList := [];
    for s := 0 to |subReports|
      invariant reportMalwareList == MalwareIds(refs, subReports[..s])
    {
      var subReport := subReports[s];
      assert subReports[..s + 1][..s] == subReports[..s];
      if subReport.id.Some? && subReport.id.value in relatedSubReports {
        var subRefs := subReport.objectRefs;
        for j := 0 to |subRefs|
          invariant reportMalwareList == MalwareIds(refs, subReports[..s]) + WithPrefix(subRefs[..j], "malware")
        {
          assert subRefs[..j + 1][..j] == subRefs[..j];
          if StartsWith(subRefs[j], "malware") {
            reportMalwareList := reportMalwareList + [subRefs[j]];
          }
        }
        assert subRefs[..|subRefs|] == subRefs;
      }
    }
    assert subReports[..|subReports|] == subReports;
  }

  /**
   * A malware id is collected exactly when some sub-report the report refers to lists it
   * among its references.
   */
  lemma {:induction false} MalwareIdsMembers(refs: seq<string>, subReports: seq<StixObject>, m: string)
    ensures m in MalwareIds(refs, subReports) <==>
      exists s :: s in subReports && s.id.Some? && s.id.value in refs && StartsWith(s.id.value, "report")
                  && m in s.objectRefs && StartsWith(m, "malware")
  {
    if subReports != [] {
      var front := subReports[..|subReports| - 1];
      MalwareIdsMembers(refs, front, m);
      assert subReports == front + [subReports[|subReports| - 1]];
    }
  }

  /** Sub-reports are visited in order, so a sub-report listed twice contributes its malware twice. */
  lemma {:induction false} MalwareIdsAppend(refs: seq<string>, a: seq<StixObject>, b: seq<StixObject>)
    ensures MalwareIds(refs, a + b) == MalwareIds(refs, a) + MalwareIds(refs, b)
  {
    if b == [] {
      assert a + b == a;
    } else {
      var n := |b| - 1;
      MalwareIdsAppend(refs, a, b[..n]);
      assert (a + b)[..|a + b| - 1] == a + b[..n];
      assert (a + b)[|a + b| - 1] == b[n];
      var last := if IsSubReportOf(b[n], refs) then WithPrefix(b[n].objectRefs, "malware") else [];
      assert MalwareIds(refs, a + b) == MalwareIds(refs, a + b[..n]) + last;
      assert MalwareIds(refs, b) == MalwareIds(refs, b[..n]) + last;
    }
  }

  /** The entry of 246-250 for a resolved malware object. */
  function MalwareEntry(obj: StixObject): RelatedEntry {
    RelatedEntry(MalwareEntryType, obj.name, Some(obj.description.GetOr(NoDescription)))
  }

  /** The entries appended by the loop of 243-250. */
  function MalwareEntries(ids: seq<string>, idToObject: map<Id, StixObject>): seq<RelatedEntry>
    requires forall m | m in ids :: Some(m) in idToObject
  {
    if ids == [] then []
    else
      assert ids[|ids| - 1] in ids;
      MalwareEntries(ids[..|ids| - 1], idToObject) + [MalwareEntry(idToObject[Some(ids[|ids| - 1])])]
  }

  /** One `Malware` entry per collected id, in order, for the object that id resolves to. */
  lemma {:induction false} MalwareEntriesAt(ids: seq<string>, idToObject: map<Id, StixObject>)
    requires forall m | m in ids :: Some(m) in idToObject
    ensures |MalwareEntries(ids, idToObject)| == |ids|
    ensures forall i | 0 <= i < |ids| :: MalwareEntries(ids, idToObject)[i] == MalwareEntry(idToObject[Some(ids[i])])
  {
    if ids != [] {
      var front := ids[..|ids| - 1];
      forall m | m in front ensures Some(m) in idToObject { assert m in ids; }
      MalwareEntriesAt(front, idToObject);
      forall i | 0 <= i < |front| ensures ids[i] == front[i] { }
    }
  }

  /** The urls the loop of 280-285 collects, in order. */
  function ReferenceUrls(refs: seq<ExternalReference>): (urls: seq<string>)
    ensures |urls| <= |refs|
    ensures forall u :: u in urls <==> exists r :: r in refs && r.url == Some(u)
  {
    if refs == [] then []
    else
      var front := refs[..|refs| - 1];
      assert refs == front + [refs[|refs| - 1]];
      ReferenceUrls(front) + (if refs[|refs| - 1].url.Some? then [refs[|refs| - 1].url.value] else [])
  }

  /** The item at 284 that sets `external_id`: it has both a url and an external id. */
  predicate HasUrlAndExternalId(item: ExternalReference) {
    item.url.Some? && item.externalId.Some?
  }

  /** `external_id` after the loop of 280-285. */
  function LastExternalId(refs: seq<ExternalReference>): string {
    if refs == [] then ""
    else if HasUrlAndExternalId(refs[|refs| - 1]) then refs[|refs| - 1].externalId.value
    else LastExternalId(refs[..|refs| - 1])
  }

  /**
   * Only one external id survives: that of the last reference with both a url and an
   * external id, or `''` when there is none.
   */
  lemma {:induction false} LastExternalIdIsLast(refs: seq<ExternalReference>)
    ensures (forall k | 0 <= k < |refs| :: !HasUrlAndExternalId(refs[k])) ==> LastExternalId(refs) == ""
    ensures forall k | 0 <= k < |refs| && HasUrlAndExternalId(refs[k]) && (forall j | k < j < |refs| :: !HasUrlAndExternalId(refs[j])) ::
      LastExternalId(refs) == refs[k].externalId.value
  {
    if refs != [] {
      var front := refs[..|refs| - 1];
      LastExternalIdIsLast(front);
      forall k | 0 <= k < |front| ensures front[k] == refs[k] { }
    }
  }

  /** The single entry of 287-291 for an attack-pattern relation. */
  function AttackPatternEntry(refs: seq<ExternalReference>): RelatedEntry {
    RelatedEntry(MitreAttack, Some(LastExternalId(refs)), Some(Join(ReferenceUrls(refs), ",")))
  }

  /** Lines 277-291: one entry per relation, joining every url and keeping the last external id. */
  method SummarizeAttackPattern(refs: seq<ExternalReference>) returns (entry: RelatedEntry)
    ensures entry == AttackPatternEntry(refs)
  {
    var allUrls: seq<string> := [];
    var externalId := "";
    for k := 0 to |refs|
      invariant allUrls == ReferenceUrls(refs[..k])
      invariant externalId == LastExternalId(refs[..k])
    {
      var item := refs[k];
      assert refs[..k + 1][..k] == refs[..k];
      if item.url.Some? {
        allUrls := allUrls + [item.url.value];
        if item.externalId.Some? {
          externalId := item.externalId.value;
        }
      }
    }
    assert refs[..|refs|] == refs;
    entry := RelatedEntry(MitreAttack, Some(externalId), Some(Join(allUrls, ",")));
  }

  /**
   * Processing a direct relation does not raise: a related id that resolves is a string,
   * and a resolved indicator or malware has a name (a missing one would be iterated at 280).
   */
  predicate ReportRelationSafe(rel: Id, idToObject: map<Id, StixObject>) {
    rel in idToObject ==>
      rel.Some? && ((KindOf(rel.value) == IndicatorKind || KindOf(rel.value) == MalwareKind) ==> idToObject[rel].name.Some?)
  }

  /** What one iteration of the loop at 252 appends. */
  function DirectEntry(rel: Id, idToObject: map<Id, StixObject>): seq<RelatedEntry>
    requires ReportRelationSafe(rel, idToObject)
  {
    if rel !in idToObject then []
    else
      var obj := idToObject[rel];
      match KindOf(rel.value)
      case AttackPattern => [AttackPatternEntry(obj.externalReferences)]
      case IndicatorKind => [RelatedEntry(IndicatorEntryType, obj.name, Some(obj.description.GetOr(NoDescription)))]
      case MalwareKind => [RelatedEntry(MalwareEntryType, obj.name, Some(obj.description.GetOr(NoDescription)))]
      case _ => []
  }

  /** The entries the loop at 252 appends for the related ids `rels`. */
  function DirectEntries(rels: seq<Id>, idToObject: map<Id, StixObject>): seq<RelatedEntry>
    requires forall rel | rel in rels :: ReportRelationSafe(rel, idToObject)
  {
    if rels == [] then []
    else
      assert rels[|rels| - 1] in rels;
      DirectEntries(rels[..|rels| - 1], idToObject) + DirectEntry(rels[|rels| - 1], idToObject)
  }

  /** Processing a relation that resolves to an attack pattern, an indicator or a malware. */
  predicate Handled(rel: Id, idToObject: map<Id, StixObject>) {
    rel in idToObject && rel.Some? && KindOf(rel.value) in {AttackPattern, IndicatorKind, MalwareKind}
  }

  lemma DirectEntryLength(rel: Id, idToObject: map<Id, StixObject>)
    requires ReportRelationSafe(rel, idToObject)
    ensures |DirectEntry(rel, idToObject)| == if Handled(rel, idToObject) then 1 else 0
  {
  }

  /** The positions of the handled relations in `rels`. */
  function HandledPositions(rels: seq<Id>, idToObject: map<Id, StixObject>): set<nat> {
    set k: nat | k < |rels| && Handled(rels[k], idToObject)
  }

  lemma HandledPositionsSnoc(rels: seq<Id>, idToObject: map<Id, StixObject>)
    requires rels != []
    ensures |HandledPositions(rels, idToObject)| ==
      |HandledPositions(rels[..|rels| - 1], idToObject)| + (if Handled(rels[|rels| - 1], idToObject) then 1 else 0)
  {
    var n := |rels| - 1;
    var before := HandledPositions(rels[..n], idToObject);
    assert n !in before;
    assert HandledPositions(rels, idToObject) == before + (if Handled(rels[n], idToObject) then {n} else {});
  }

  /** One entry per handled relation; unresolved ids and other kinds add nothing. */
  lemma {:induction false} DirectEntriesCount(rels: seq<Id>, idToObject: map<Id, StixObject>)
    requires forall rel | rel in rels :: ReportRelationSafe(rel, idToObject)
    ensures |DirectEntries(rels, idToObject)| == |HandledPositions(rels, idToObject)|
  {
    if rels != [] {
      var n := |rels| - 1;
      forall rel | rel in rels[..n] ensures ReportRelationSafe(rel, idToObject) { assert rel in rels; }
      DirectEntriesCount(rels[..n], idToObject);
      assert rels[n] in rels;
      DirectEntryLength(rels[n], idToObject);
      HandledPositionsSnoc(rels, idToObject);
    }
  }

  /** The crash-free conditions of lines 243-291 for one report. */
  predicate ReportSafe(r: Report, subReports: seq<StixObject>, order: map<Id, seq<Id>>, idToObject: map<Id, StixObject>) {
    && (forall m | m in MalwareIds(r.rawJSON.unit42ObjectRefs, subReports) :: Some(m) in idToObject)
    && (forall rel | rel in RelatedIds(order, r.id) :: ReportRelationSafe(rel, idToObject))
  }

  /** The `feedrelatedindicators` list the source builds for a report. */
  function RelatedEntriesOf(r: Report, subReports: seq<StixObject>, order: map<Id, seq<Id>>, idToObject: map<Id, StixObject>): seq<RelatedEntry>
    requires ReportSafe(r, subReports, order, idToObject)
  {
    MalwareEntries(MalwareIds(r.rawJSON.unit42ObjectRefs, subReports), idToObject)
      + DirectEntries(RelatedIds(order, r.id), idToObject)
  }

  /** The report after lines 230-291; the field is set afresh (241), whatever it held before. */
  function EnrichReport(r: Report, subReports: seq<StixObject>, order: map<Id, seq<Id>>, idToObject: map<Id, StixObject>): Report
    requires ReportSafe(r, subReports, order, idToObject)
  {
    r.(fields := r.fields.(feedRelatedIndicators := Some(RelatedEntriesOf(r, subReports, order, idToObject))))
  }

  /** Lines 243-250: one `Malware` entry per collected id. */
  method ResolveMalware(reportMalwareList: seq<string>, idToObject: map<Id, StixObject>) returns (related: seq<RelatedEntry>)
    requires forall m | m in reportMalwareList :: Some(m) in idToObject
    ensures related == MalwareEntries(reportMalwareList, idToObject)
  {
    related := [];
    for m := 0 to |reportMalwareList|
      invariant related == MalwareEntries(reportMalwareList[..m], idToObject)
    {
      assert reportMalwareList[m] in reportMalwareList;
      var malwareObject := idToObject[Some(reportMalwareList[m])];
      assert reportMalwareList[..m + 1][..m] == reportMalwareList[..m];
      related := related + [RelatedEntry(MalwareEntryType, malwareObject.name, Some(malwareObject.description.GetOr(NoDescription)))];
    }
    assert reportMalwareList[..|reportMalwareList|] == reportMalwareList;
  }

  /** Lines 252-291: the entries for the ids related to the lookup key. */
  method ResolveDirectRelations(relations: seq<Id>, idToObject: map<Id, StixObject>) returns (related: seq<RelatedEntry>)
    requires forall rel | rel in relations :: ReportRelationSafe(rel, idToObject)
    ensures related == DirectEntries(relations, idToObject)
  {
    related := [];
    for j := 0 to |relations|
      invariant related == DirectEntries(relations[..j], idToObject)
    {
      var relation := relations[j];
      assert relation in relations;
      assert relations[..j + 1][..j] == relations[..j];
      assert DirectEntries(relations[..j + 1], idToObject) == DirectEntries(relations[..j], idToObject) + DirectEntry(relation, idToObject);
      if relation in idToObject {
        var relationObject := idToObject[relation];
        match KindOf(relation.value)
        case AttackPattern =>
          var entry := SummarizeAttackPattern(relationObject.externalReferences);
          related := related + [entry];
        case IndicatorKind =>
          related := related + [RelatedEntry(IndicatorEntryType, relationObject.name, Some(relationObject.description.GetOr(NoDescription)))];
        case MalwareKind =>
          related := related + [RelatedEntry(MalwareEntryType, relationObject.name, Some(relationObject.description.GetOr(NoDescription)))];
        case _ =>
          // any other kind: `continue`
      }
    }
    assert relations[..|relations|] == relations;
  }

  /** Lines 230-291 for one report: the list assigned to its `feedrelatedindicators`. */
  method CollectRelatedEntries(report: Report, subReports: seq<StixObject>, order: map<Id, seq<Id>>, idToObject: map<Id, StixObject>)
    returns (related: seq<RelatedEntry>)
    requires ReportSafe(report, subReports, order, idToObject)
    ensures related == RelatedEntriesOf(report, subReports, order, idToObject)
  {
    var reportMalwareList := CollectReportMalware(report.rawJSON.unit42ObjectRefs, subReports);
    var malwareEntries := ResolveMalware(reportMalwareList, idToObject);
    var directEntries := ResolveDirectRelations(RelatedIds(order, report.id), idToObject);
    related := malwareEntries + directEntries;
  }

  /** Lines 216-293, updating each report's fields in place. */
  method ParseReportsRelationships(reports: array<Report>, subReports: seq<StixObject>, order: map<Id, seq<Id>>, idToObject: map<Id, StixObject>)
    requires forall i | 0 <= i < reports.Length :: ReportSafe(reports[i], subReports, order, idToObject)
    modifies reports
    ensures forall i | 0 <= i < reports.Length :: reports[i] == EnrichReport(old(reports[i]), subReports, order, idToObject)
  {
    for i := 0 to reports.Length
      invariant forall k | 0 <= k < i :: reports[k] == EnrichReport(old(reports[k]), subReports, order, idToObject)
      invariant forall k | i <= k < reports.Length :: reports[k] == old(reports[k])
    {
      var report := reports[i];
      var related := CollectRelatedEntries(report, subReports, order, idToObject);
      reports[i] := report.(fields := report.fields.(feedRelatedIndicators := Some(related)));
    }
  }

  /** The enrichment sets the related entries and touches nothing else. */
  lemma EnrichKeepsReport(o: StixObject, feedTags: seq<string>, tlpColor: Option<string>, subReports: seq<StixObject>,
                          order: map<Id, seq<Id>>, idToObject: map<Id, StixObject>)
    requires ReportSafe(NewReport(o, feedTags, tlpColor), subReports, order, idToObject)
    ensures ReportBuiltFrom(EnrichReport(NewReport(o, feedTags, tlpColor), subReports, order, idToObject), o, feedTags, tlpColor)
    ensures EnrichReport(NewReport(o, feedTags, tlpColor), subReports, order, idToObject).fields.feedRelatedIndicators
         == Some(RelatedEntriesOf(NewReport(o, feedTags, tlpColor), subReports, order, idToObject))
    ensures var e := EnrichReport(NewReport(o, feedTags, tlpColor), subReports, order, idToObject);
      e.(fields := e.fields.(feedRelatedIndicators := None)) == NewReport(o, feedTags, tlpColor)
  {
  }

  /** Whatever the field held before, it is replaced, not extended. */
  lemma ResetDiscardsEarlierEntries(r: Report, earlier: Option<seq<RelatedEntry>>, subReports: seq<StixObject>,
                                    order: map<Id, seq<Id>>, idToObject: map<Id, StixObject>)
    requires ReportSafe(r, subReports, order, idToObject)
    ensures ReportSafe(r.(fields := r.fields.(feedRelatedIndicators := earlier)), subReports, order, idToObject)
    ensures EnrichReport(r.(fields := r.fields.(feedRelatedIndicators := earlier)), subReports, order, idToObject)
         == EnrichReport(r, subReports, order, idToObject)
  {
  }

  /**
   * A report built by `parse_reports` has no top-level `id`, so the lookup at 252 asks for
   * the ids related to `None`; when no relationship lacks an endpoint there are none, and
   * the field holds exactly one `Malware` entry per collected sub-report malware id.
   */
  lemma DeadLookupAddsNothing(o: StixObject, feedTags: seq<string>, tlpColor: Option<string>, subReports: seq<StixObject>,
                              order: map<Id, seq<Id>>, idToObject: map<Id, StixObject>)
    requires ReportSafe(NewReport(o, feedTags, tlpColor), subReports, order, idToObject)
    requires None !in order
    ensures EnrichReport(NewReport(o, feedTags, tlpColor), subReports, order, idToObject).fields.feedRelatedIndicators
         == Some(MalwareEntries(MalwareIds(o.objectRefs, subReports), idToObject))
  {
    var r := NewReport(o, feedTags, tlpColor);
    var malware := MalwareEntries(MalwareIds(o.objectRefs, subReports), idToObject);
    assert RelatedIds(order, r.id) == [];
    assert RelatedEntriesOf(r, subReports, order, idToObject) == malware + [];
    assert malware + [] == malware;
  }
}
