/**
 * The post-fetch part of `fetch_indicators` (lines 362-382): sort the reports, index every
 * object by id, build the relationship graph, parse and enrich indicators and reports,
 * and return the indicators followed by the reports.
 */
module Feed {
  import opened Wrappers
  import opened Strings
  import opened Stix
  import opened Graph
  import opened Indicators
  import opened Reports

  /** `client.objects_data`: the objects fetched for each type. */
  datatype ObjectsData = ObjectsData(
    report: seq<StixObject>,
    indicator: seq<StixObject>,
    malware: seq<StixObject>,
    campaign: seq<StixObject>,
    attackPattern: seq<StixObject>,
    relationship: seq<Relationship>)

  /** The list the dictionary of 367-371 is built from, in that order. */
  function AllObjects(data: ObjectsData): seq<StixObject> {
    data.report + data.indicator + data.malware + data.campaign + data.attackPattern
  }

  /** `{obj.get('id'): obj for obj in objs}`: a later object with the same id overwrites an earlier one. */
  function IdToObject(objs: seq<StixObject>): (m: map<Id, StixObject>)
    ensures m.Keys == set o | o in objs :: o.id
  {
    if objs == [] then map[]
    else
      var front := objs[..|objs| - 1];
      assert objs == front + [objs[|objs| - 1]];
      IdToObject(front)[objs[|objs| - 1].id := objs[|objs| - 1]]
  }

  /** Each id maps to the last object carrying it. */
  lemma {:induction false} IdToObjectLastWins(objs: seq<StixObject>, i: nat)
    requires i < |objs|
    requires forall j | i < j < |objs| :: objs[j].id != objs[i].id
    ensures IdToObject(objs)[objs[i].id] == objs[i]
  {
    var n := |objs| - 1;
    var front := objs[..n];
    assert IdToObject(objs) == IdToObject(front)[objs[n].id := objs[n]];
    if i < n {
      forall j | i < j < n ensures front[j].id != front[i].id {
        assert front[j] == objs[j];
      }
      IdToObjectLastWins(front, i);
      assert objs[n].id != objs[i].id;
    }
  }

  /** An item returned by `fetch_indicators`: an indicator or a report. */
  datatype Entity = IndicatorEntity(indicator: Indicator) | ReportEntity(report: Report)

  function IndicatorEntities(xs: seq<Indicator>): seq<Entity> {
    seq(|xs|, i requires 0 <= i < |xs| => IndicatorEntity(xs[i]))
  }

  function ReportEntities(xs: seq<Report>): seq<Entity> {
    seq(|xs|, i requires 0 <= i < |xs| => ReportEntity(xs[i]))
  }

  /** The pattern starts with some key of the type table, so the object yields entities. */
  predicate Classified(pattern: string) {
    exists k | 0 <= k < |Unit42TypesToDemistoTypes| :: Classifies(pattern, Unit42TypesToDemistoTypes[k])
  }

  /**
   * The inputs on which lines 362-382 do not raise, stated without the iteration order of
   * the graph's sets: every relation of an indicator that yields entities is safe to process,
   * every malware id a main report collects resolves, and when there is a main report the
   * ids related to `None` (the key its lookup at 252 uses) are safe to process.
   */
  ghost predicate FetchSafe(data: ObjectsData) {
    var idToObject := IdToObject(AllObjects(data));
    && (forall o, rel | o in data.indicator && Classified(o.pattern) && rel in Neighbours(data.relationship, o.id) ::
          IndicatorRelationSafe(rel, idToObject))
    && (forall o, m | o in MainReports(data.report) && m in MalwareIds(o.objectRefs, SubReports(data.report)) ::
          Some(m) in idToObject)
    && (MainReports(data.report) != [] ==>
          forall rel | rel in Neighbours(data.relationship, None) :: ReportRelationSafe(rel, idToObject))
  }

  /** Whatever order the sets hand out their members in, the loops see exactly the neighbours. */
  lemma RelatedIdsNeighbours(order: map<Id, seq<Id>>, rels: seq<Relationship>, x: Id)
    requires Lists(order, GraphOf(rels))
    ensures forall y :: y in RelatedIds(order, x) <==> y in Neighbours(rels, x)
  {
    if x !in GraphOf(rels) {
      NeighbouredOnlyIfEndpoint(rels, x);
    }
  }

  lemma SafeIndicators(data: ObjectsData, feedTags: seq<string>, tlpColor: Option<string>, order: map<Id, seq<Id>>)
    requires FetchSafe(data) && Lists(order, GraphOf(data.relationship))
    ensures forall e | e in IndicatorsOf(data.indicator, feedTags, tlpColor) :: IndicatorSafe(e, order, IdToObject(AllObjects(data)))
  {
    forall e | e in IndicatorsOf(data.indicator, feedTags, tlpColor)
      ensures IndicatorSafe(e, order, IdToObject(AllObjects(data)))
    {
      ParsedIndicatorShape(data.indicator, feedTags, tlpColor, e);
      var o, k :| o in data.indicator && BuiltFrom(e, o, k, feedTags, tlpColor);
      assert Classified(o.pattern);
      RelatedIdsNeighbours(order, data.relationship, o.id);
    }
  }

  lemma SafeReports(data: ObjectsData, feedTags: seq<string>, tlpColor: Option<string>, order: map<Id, seq<Id>>)
    requires FetchSafe(data) && Lists(order, GraphOf(data.relationship))
    ensures forall o | o in MainReports(data.report) ::
      ReportSafe(NewReport(o, feedTags, tlpColor), SubReports(data.report), order, IdToObject(AllObjects(data)))
  {
    RelatedIdsNeighbours(order, data.relationship, None);
  }

  /** The indicators after `parse_indicators_relationships`. */
  ghost function EnrichedIndicators(data: ObjectsData, feedTags: seq<string>, tlpColor: Option<string>, order: map<Id, seq<Id>>): seq<Indicator>
    requires FetchSafe(data) && Lists(order, GraphOf(data.relationship))
  {
    var parsed := IndicatorsOf(data.indicator, feedTags, tlpColor);
    SafeIndicators(data, feedTags, tlpColor, order);
    seq(|parsed|, i requires 0 <= i < |parsed| => EnrichIndicator(parsed[i], order, IdToObject(AllObjects(data))))
  }

  /** The reports after `parse_reports_relationships`, one per main report object. */
  ghost function EnrichedReports(data: ObjectsData, feedTags: seq<string>, tlpColor: Option<string>, order: map<Id, seq<Id>>): seq<Report>
    requires FetchSafe(data) && Lists(order, GraphOf(data.relationship))
  {
    var mains := MainReports(data.report);
    SafeReports(data, feedTags, tlpColor, order);
    seq(|mains|, j requires 0 <= j < |mains| =>
      EnrichReport(NewReport(mains[j], feedTags, tlpColor), SubReports(data.report), order, IdToObject(AllObjects(data))))
  }

  /** The list `fetch_indicators` returns for the iteration order `order`. */
  ghost function Assembled(data: ObjectsData, feedTags: seq<string>, tlpColor: Option<string>, order: map<Id, seq<Id>>): seq<Entity>
    requires FetchSafe(data) && Lists(order, GraphOf(data.relationship))
  {
    IndicatorEntities(EnrichedIndicators(data, feedTags, tlpColor, order))
      + ReportEntities(EnrichedReports(data, feedTags, tlpColor, order))
  }

  lemma EnrichedIndicatorsAt(data: ObjectsData, feedTags: seq<string>, tlpColor: Option<string>, order: map<Id, seq<Id>>)
    requires FetchSafe(data) && Lists(order, GraphOf(data.relationship))
    ensures forall i | 0 <= i < |IndicatorsOf(data.indicator, feedTags, tlpColor)| ::
      IndicatorSafe(IndicatorsOf(data.indicator, feedTags, tlpColor)[i], order, IdToObject(AllObjects(data)))
    ensures |EnrichedIndicators(data, feedTags, tlpColor, order)| == |IndicatorsOf(data.indicator, feedTags, tlpColor)|
    ensures forall i | 0 <= i < |IndicatorsOf(data.indicator, feedTags, tlpColor)| ::
      EnrichedIndicators(data, feedTags, tlpColor, order)[i]
        == EnrichIndicator(IndicatorsOf(data.indicator, feedTags, tlpColor)[i], order, IdToObject(AllObjects(data)))
  {
    SafeIndicators(data, feedTags, tlpColor, order);
  }

  lemma EnrichedReportsAt(data: ObjectsData, feedTags: seq<string>, tlpColor: Option<string>, order: map<Id, seq<Id>>)
    requires FetchSafe(data) && Lists(order, GraphOf(data.relationship))
    ensures forall j | 0 <= j < |MainReports(data.report)| ::
      ReportSafe(NewReport(MainReports(data.report)[j], feedTags, tlpColor), SubReports(data.report), order, IdToObject(AllObjects(data)))
    ensures |EnrichedReports(data, feedTags, tlpColor, order)| == |MainReports(data.report)|
    ensures forall j | 0 <= j < |MainReports(data.report)| ::
      EnrichedReports(data, feedTags, tlpColor, order)[j]
        == EnrichReport(NewReport(MainReports(data.report)[j], feedTags, tlpColor), SubReports(data.report), order, IdToObject(AllObjects(data)))
  {
    SafeReports(data, feedTags, tlpColor, order);
  }

  /** Lines 375-376: parse the indicators and enrich them in place. */
  method IndicatorStage(data: ObjectsData, feedTags: seq<string>, tlpColor: Option<string>,
                        order: map<Id, seq<Id>>, idToObject: map<Id, StixObject>) returns (indicators: seq<Indicator>)
    requires FetchSafe(data) && Lists(order, GraphOf(data.relationship))
    requires idToObject == IdToObject(AllObjects(data))
    ensures indicators == EnrichedIndicators(data, feedTags, tlpColor, order)
  {
    var parsedIndicators := ParseIndicators(data.indicator, feedTags, tlpColor);
    var parsed := new Indicator[|parsedIndicators|](i requires 0 <= i < |parsedIndicators| => parsedIndicators[i]);
    EnrichedIndicatorsAt(data, feedTags, tlpColor, order);
    ParseIndicatorsRelationships(parsed, order, idToObject);
    indicators := parsed[..];
  }

  /** Lines 378-379: parse the main reports and enrich them in place. */
  method ReportStage(data: ObjectsData, mainReportObjects: seq<StixObject>, subReportObjects: seq<StixObject>,
                     feedTags: seq<string>, tlpColor: Option<string>,
                     order: map<Id, seq<Id>>, idToObject: map<Id, StixObject>) returns (reports: seq<Report>)
    requires FetchSafe(data) && Lists(order, GraphOf(data.relationship))
    requires mainReportObjects == MainReports(data.report) && subReportObjects == SubReports(data.report)
    requires idToObject == IdToObject(AllObjects(data))
    ensures reports == EnrichedReports(data, feedTags, tlpColor, order)
  {
    var parsedReports := ParseReports(mainReportObjects, feedTags, tlpColor);
    var parsed := new Report[|parsedReports|](j requires 0 <= j < |parsedReports| => parsedReports[j]);
    EnrichedReportsAt(data, feedTags, tlpColor, order);
    ParseReportsRelationships(parsed, subReportObjects, order, idToObject);
    reports := parsed[..];
  }

  /** Lines 362-382, once the objects have been fetched. */
  method FetchIndicators(data: ObjectsData, feedTags: seq<string>, tlpColor: Option<string>) returns (result: seq<Entity>)
    requires FetchSafe(data)
    ensures exists order :: Lists(order, GraphOf(data.relationship)) && result == Assembled(data, feedTags, tlpColor, order)
  {
    var mainReportObjects, subReportObjects := SortReportObjectsByType(data.report);
    var idToObject := IdToObject(data.report + data.indicator + data.malware + data.campaign + data.attackPattern);
    var matchedRelationships := MatchRelationships(data.relationship);
    var order := ListGraph(matchedRelationships);
    var indicators := IndicatorStage(data, feedTags, tlpColor, order, idToObject);
    var reports := ReportStage(data, mainReportObjects, subReportObjects, feedTags, tlpColor, order, idToObject);
    result := IndicatorEntities(indicators) + ReportEntities(reports);
  }

  /**
   * The indicators come first, one per (object, matching key) pair, then the reports,
   * one per `report` reference of a report object.
   */
  lemma FetchLayout(data: ObjectsData, feedTags: seq<string>, tlpColor: Option<string>, order: map<Id, seq<Id>>)
    requires FetchSafe(data) && Lists(order, GraphOf(data.relationship))
    ensures |Assembled(data, feedTags, tlpColor, order)| == TotalMatches(data.indicator) + |MainReports(data.report)|
    ensures forall i | 0 <= i < |Assembled(data, feedTags, tlpColor, order)| ::
      Assembled(data, feedTags, tlpColor, order)[i].IndicatorEntity? <==> i < TotalMatches(data.indicator)
  {
    IndicatorsCount(data.indicator, feedTags, tlpColor);
  }

  lemma EntitiesAt(xs: seq<Indicator>, ys: seq<Report>)
    ensures |IndicatorEntities(xs) + ReportEntities(ys)| == |xs| + |ys|
    ensures forall i | 0 <= i < |xs| :: (IndicatorEntities(xs) + ReportEntities(ys))[i] == IndicatorEntity(xs[i])
    ensures forall j | 0 <= j < |ys| :: (IndicatorEntities(xs) + ReportEntities(ys))[|xs| + j] == ReportEntity(ys[j])
  {
  }

  lemma EnrichedIndicatorsCount(data: ObjectsData, feedTags: seq<string>, tlpColor: Option<string>, order: map<Id, seq<Id>>)
    requires FetchSafe(data) && Lists(order, GraphOf(data.relationship))
    ensures |EnrichedIndicators(data, feedTags, tlpColor, order)| == TotalMatches(data.indicator)
  {
    IndicatorsCount(data.indicator, feedTags, tlpColor);
  }

  lemma EnrichedReportAt(data: ObjectsData, feedTags: seq<string>, tlpColor: Option<string>, order: map<Id, seq<Id>>, j: nat)
    requires FetchSafe(data) && Lists(order, GraphOf(data.relationship))
    requires j < |MainReports(data.report)|
    ensures MainReports(data.report)[j] in MainReports(data.report)
    ensures ReportSafe(NewReport(MainReports(data.report)[j], feedTags, tlpColor), SubReports(data.report), order, IdToObject(AllObjects(data)))
    ensures j < |EnrichedReports(data, feedTags, tlpColor, order)|
    ensures EnrichedReports(data, feedTags, tlpColor, order)[j] ==
      EnrichReport(NewReport(MainReports(data.report)[j], feedTags, tlpColor), SubReports(data.report), order, IdToObject(AllObjects(data)))
  {
    SafeReports(data, feedTags, tlpColor, order);
  }

  /** The entity at position `TotalMatches + j` of the result is the enriched `j`-th main report. */
  lemma ReportAt(data: ObjectsData, feedTags: seq<string>, tlpColor: Option<string>, order: map<Id, seq<Id>>, j: nat)
    requires FetchSafe(data) && Lists(order, GraphOf(data.relationship))
    requires j < |MainReports(data.report)|
    ensures MainReports(data.report)[j] in MainReports(data.report)
    ensures ReportSafe(NewReport(MainReports(data.report)[j], feedTags, tlpColor), SubReports(data.report), order, IdToObject(AllObjects(data)))
    ensures TotalMatches(data.indicator) + j < |Assembled(data, feedTags, tlpColor, order)|
    ensures Assembled(data, feedTags, tlpColor, order)[TotalMatches(data.indicator) + j] ==
      ReportEntity(EnrichReport(NewReport(MainReports(data.report)[j], feedTags, tlpColor), SubReports(data.report), order, IdToObject(AllObjects(data))))
  {
    var inds := EnrichedIndicators(data, feedTags, tlpColor, order);
    var reps := EnrichedReports(data, feedTags, tlpColor, order);
    EnrichedIndicatorsCount(data, feedTags, tlpColor, order);
    EnrichedReportAt(data, feedTags, tlpColor, order, j);
    EntitiesAt(inds, reps);
    assert Assembled(data, feedTags, tlpColor, order) == IndicatorEntities(inds) + ReportEntities(reps);
  }

  /**
   * Each report entity of the result is built from the `j`-th main report object, and its
   * related entries are set.
   */
  lemma FetchedReport(data: ObjectsData, feedTags: seq<string>, tlpColor: Option<string>, order: map<Id, seq<Id>>, j: nat)
    requires FetchSafe(data) && Lists(order, GraphOf(data.relationship))
    requires j < |MainReports(data.report)|
    ensures TotalMatches(data.indicator) + j < |Assembled(data, feedTags, tlpColor, order)|
    ensures
      var e := Assembled(data, feedTags, tlpColor, order)[TotalMatches(data.indicator) + j];
      && e.ReportEntity?
      && ReportBuiltFrom(e.report, MainReports(data.report)[j], feedTags, tlpColor)
      && e.report.fields.feedRelatedIndicators.Some?
  {
    ReportAt(data, feedTags, tlpColor, order, j);
    EnrichKeepsReport(MainReports(data.report)[j], feedTags, tlpColor, SubReports(data.report), order, IdToObject(AllObjects(data)));
  }

  /**
   * When every relationship names both its endpoints, the report lookup under `None`
   * finds nothing: each report's related entries are exactly its sub-reports' malware.
   */
  lemma WellFormedReportsGetOnlyMalware(data: ObjectsData, feedTags: seq<string>, tlpColor: Option<string>, order: map<Id, seq<Id>>, j: nat)
    requires FetchSafe(data) && Lists(order, GraphOf(data.relationship))
    requires forall r | r in data.relationship :: r.sourceRef.Some? && r.targetRef.Some?
    requires j < |MainReports(data.report)|
    ensures TotalMatches(data.indicator) + j < |Assembled(data, feedTags, tlpColor, order)|
    ensures
      var o := MainReports(data.report)[j];
      var e := Assembled(data, feedTags, tlpColor, order)[TotalMatches(data.indicator) + j];
      && o in MainReports(data.report)
      && e.ReportEntity?
      && e.report.fields.feedRelatedIndicators
         == Some(MalwareEntries(MalwareIds(o.objectRefs, SubReports(data.report)), IdToObject(AllObjects(data))))
  {
    ReportAt(data, feedTags, tlpColor, order, j);
    NoneKeyIffMissingEndpoint(data.relationship);
    DeadLookupAddsNothing(MainReports(data.report)[j], feedTags, tlpColor, SubReports(data.report), order, IdToObject(AllObjects(data)));
  }

  /** Without relationships an indicator keeps the fields `parse_indicators` gave it. */
  lemma NoRelationshipsLeaveIndicators(data: ObjectsData, feedTags: seq<string>, tlpColor: Option<string>, order: map<Id, seq<Id>>)
    requires FetchSafe(data) && Lists(order, GraphOf(data.relationship))
    requires data.relationship == []
    ensures forall i | 0 <= i < |IndicatorsOf(data.indicator, feedTags, tlpColor)| ::
      i < |Assembled(data, feedTags, tlpColor, order)|
      && Assembled(data, feedTags, tlpColor, order)[i] == IndicatorEntity(IndicatorsOf(data.indicator, feedTags, tlpColor)[i])
  {
    assert GraphOf(data.relationship).Keys == {};
    var parsed := IndicatorsOf(data.indicator, feedTags, tlpColor);
    var enriched := EnrichedIndicators(data, feedTags, tlpColor, order);
    var all := Assembled(data, feedTags, tlpColor, order);
    assert |all| == |enriched| + |EnrichedReports(data, feedTags, tlpColor, order)|;
    forall i | 0 <= i < |parsed| ensures i < |all| && all[i] == IndicatorEntity(parsed[i]) {
      assert RelatedIds(order, parsed[i].fields.indicatorIdentification) == [];
      assert enriched[i] == parsed[i];
      assert all[i] == IndicatorEntity(enriched[i]);
    }
  }
}
