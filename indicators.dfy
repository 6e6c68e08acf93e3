/**
 * `parse_indicators` and `parse_indicators_relationships`: typed indicator entities
 * built from raw indicator objects, then enriched in place from the relationship graph.
 */
module Indicators {
  import opened Wrappers
  import opened Strings
  import opened Stix

  /** The `fields` dictionary of an indicator entity; a key not yet set is `None`. */
  datatype IndicatorFields = IndicatorFields(
    firstSeenBySource: Option<string>,
    indicatorIdentification: Id,
    tags: seq<string>,
    modified: Option<string>,
    reportedBy: string,
    trafficLightProtocol: Option<string>,
    feedRelatedIndicators: Option<seq<RelatedEntry>>,
    campaign: Option<seq<string>>,
    malwareFamily: Option<seq<string>>)

  datatype Indicator = Indicator(value: Option<string>, indicatorType: IndicatorType, rawJSON: StixObject, fields: IndicatorFields)

  type TypeTable = seq<(string, IndicatorType)>

  /** The test at line 77: the pattern starts with `[` followed by the table key. */
  predicate Classifies(pattern: string, entry: (string, IndicatorType)) {
    StartsWith(pattern, "[" + entry.0)
  }

  /** The entity of lines 78-92 for object `o` classified as `t`. */
  function NewIndicator(o: StixObject, t: IndicatorType, feedTags: seq<string>, tlpColor: Option<string>): Indicator {
    Indicator(o.name, t, o,
      IndicatorFields(o.created, o.id, Tags(o.labels, feedTags), o.modified, ReportedBy,
                      TrafficLight(tlpColor), None, None, None))
  }

  /** What one visit of the inner loop (76-94) appends: an entity when the key classifies the pattern. */
  function Emit(o: StixObject, entry: (string, IndicatorType), feedTags: seq<string>, tlpColor: Option<string>): seq<Indicator> {
    if Classifies(o.pattern, entry) then [NewIndicator(o, entry.1, feedTags, tlpColor)] else []
  }

  /** What the inner loop (76-94) appends for `o` after visiting the keys of `table`. */
  function EntitiesFor(o: StixObject, table: TypeTable, feedTags: seq<string>, tlpColor: Option<string>): seq<Indicator> {
    if table == [] then []
    else EntitiesFor(o, table[..|table| - 1], feedTags, tlpColor) + Emit(o, table[|table| - 1], feedTags, tlpColor)
  }

  /** What `parse_indicators` returns for `objs`. */
  function IndicatorsOf(objs: seq<StixObject>, feedTags: seq<string>, tlpColor: Option<string>): seq<Indicator> {
    if objs == [] then []
    else IndicatorsOf(objs[..|objs| - 1], feedTags, tlpColor) + EntitiesFor(objs[|objs| - 1], Unit42TypesToDemistoTypes, feedTags, tlpColor)
  }

  /** Lines 76-94 for one object: one entity per table key its pattern starts with. */
  method ClassifyObject(indicatorObject: StixObject, feedTags: seq<string>, tlpColor: Option<string>)
    returns (entities: seq<Indicator>)
    ensures entities == EntitiesFor(indicatorObject, Unit42TypesToDemistoTypes, feedTags, tlpColor)
  {
    var table := Unit42TypesToDemistoTypes;
    var pattern := indicatorObject.pattern;
    entities := [];
    for j := 0 to |table|
      invariant entities == EntitiesFor(indicatorObject, table[..j], feedTags, tlpColor)
    {
      ghost var before := entities;
      var key := table[j].0;
      if StartsWith(pattern, "[" + key) {
        var fields := IndicatorFields(indicatorObject.created, indicatorObject.id,
                                      Tags(indicatorObject.labels, feedTags), indicatorObject.modified,
                                      ReportedBy, None, None, None, None);
        if tlpColor.Some? && tlpColor.value != "" {
          fields := fields.(trafficLightProtocol := tlpColor);
        }
        entities := entities + [Indicator(indicatorObject.name, table[j].1, indicatorObject, fields)];
      }
      assert entities == before + Emit(indicatorObject, table[j], feedTags, tlpColor);
      EntitiesForStep(indicatorObject, table, j, feedTags, tlpColor);
    }
    assert table[..|table|] == table;
  }

  /** Lines 63-96. The loop over the table has no `break`: every matching key yields an entity. */
  method ParseIndicators(indicatorObjects: seq<StixObject>, feedTags: seq<string>, tlpColor: Option<string>)
    returns (indicators: seq<Indicator>)
    ensures indicators == IndicatorsOf(indicatorObjects, feedTags, tlpColor)
  {
    indicators := [];
    for i := 0 to |indicatorObjects|
      invariant indicators == IndicatorsOf(indicatorObjects[..i], feedTags, tlpColor)
    {
      var entities := ClassifyObject(indicatorObjects[i], feedTags, tlpColor);
      indicators := indicators + entities;
      assert indicatorObjects[..i + 1][..i] == indicatorObjects[..i];
    }
    assert indicatorObjects[..|indicatorObjects|] == indicatorObjects;
  }

  /** How many keys of `table` classify `pattern`. */
  function MatchCount(pattern: string, table: TypeTable): nat {
    if table == [] then 0
    else MatchCount(pattern, table[..|table| - 1]) + (if Classifies(pattern, table[|table| - 1]) then 1 else 0)
  }

  function TotalMatches(objs: seq<StixObject>): nat {
    if objs == [] then 0 else TotalMatches(objs[..|objs| - 1]) + MatchCount(objs[|objs| - 1].pattern, Unit42TypesToDemistoTypes)
  }

  lemma {:induction false} EntitiesForCount(o: StixObject, table: TypeTable, feedTags: seq<string>, tlpColor: Option<string>)
    ensures |EntitiesFor(o, table, feedTags, tlpColor)| == MatchCount(o.pattern, table)
  {
    if table != [] {
      EntitiesForCount(o, table[..|table| - 1], feedTags, tlpColor);
    }
  }

  /** One entity per (object, matching key) pair. */
  lemma {:induction false} IndicatorsCount(objs: seq<StixObject>, feedTags: seq<string>, tlpColor: Option<string>)
    ensures |IndicatorsOf(objs, feedTags, tlpColor)| == TotalMatches(objs)
  {
    if objs != [] {
      IndicatorsCount(objs[..|objs| - 1], feedTags, tlpColor);
      EntitiesForCount(objs[|objs| - 1], Unit42TypesToDemistoTypes, feedTags, tlpColor);
    }
  }

  /** Objects are processed in order: the output for `a + b` is the output for `a`, then for `b`. */
  lemma {:induction false} IndicatorsAppend(a: seq<StixObject>, b: seq<StixObject>, feedTags: seq<string>, tlpColor: Option<string>)
    ensures IndicatorsOf(a + b, feedTags, tlpColor) == IndicatorsOf(a, feedTags, tlpColor) + IndicatorsOf(b, feedTags, tlpColor)
  {
    if b == [] {
      assert a + b == a;
    } else {
      var n := |b| - 1;
      IndicatorsAppend(a, b[..n], feedTags, tlpColor);
      assert (a + b)[..|a + b| - 1] == a + b[..n];
      assert (a + b)[|a + b| - 1] == b[n];
      var last := EntitiesFor(b[n], Unit42TypesToDemistoTypes, feedTags, tlpColor);
      assert IndicatorsOf(a + b, feedTags, tlpColor) == IndicatorsOf(a + b[..n], feedTags, tlpColor) + last;
      assert IndicatorsOf(b, feedTags, tlpColor) == IndicatorsOf(b[..n], feedTags, tlpColor) + last;
    }
  }

  lemma {:induction false} EntitiesForShape(o: StixObject, table: TypeTable, feedTags: seq<string>, tlpColor: Option<string>, e: Indicator)
    requires e in EntitiesFor(o, table, feedTags, tlpColor)
    ensures exists k :: 0 <= k < |table| && Classifies(o.pattern, table[k]) && e == NewIndicator(o, table[k].1, feedTags, tlpColor)
  {
    var front := table[..|table| - 1];
    if e in EntitiesFor(o, front, feedTags, tlpColor) {
      EntitiesForShape(o, front, feedTags, tlpColor, e);
      var k :| 0 <= k < |front| && Classifies(o.pattern, front[k]) && e == NewIndicator(o, front[k].1, feedTags, tlpColor);
      assert table[k] == front[k];
    } else {
      assert Classifies(o.pattern, table[|table| - 1]) && e == NewIndicator(o, table[|table| - 1].1, feedTags, tlpColor);
    }
  }

  /**
   * `e` is what lines 78-92 build for object `o` and table key `k`: the key classifies the
   * pattern, the type is that key's type, the value the object's name, the identification
   * the object's id, the tags the labels and feed tags without repetition, a traffic-light
   * field exactly when `tlp_color` is truthy, and no relationship field yet.
   */
  ghost predicate BuiltFrom(e: Indicator, o: StixObject, k: int, feedTags: seq<string>, tlpColor: Option<string>) {
    && 0 <= k < |Unit42TypesToDemistoTypes| && Classifies(o.pattern, Unit42TypesToDemistoTypes[k])
    && e.indicatorType == Unit42TypesToDemistoTypes[k].1
    && e.value == o.name && e.fields.indicatorIdentification == o.id
    && NoDup(e.fields.tags) && (forall t :: t in e.fields.tags <==> t in o.labels || t in feedTags)
    && (e.fields.trafficLightProtocol.Some? <==> tlpColor.Some? && tlpColor.value != "")
    && (e.fields.trafficLightProtocol.Some? ==> e.fields.trafficLightProtocol == tlpColor)
    && e.fields.feedRelatedIndicators.None? && e.fields.campaign.None? && e.fields.malwareFamily.None?
  }

  /** Every entity comes from an input object and a table key its pattern starts with. */
  lemma {:induction false} ParsedIndicatorShape(objs: seq<StixObject>, feedTags: seq<string>, tlpColor: Option<string>, e: Indicator)
    requires e in IndicatorsOf(objs, feedTags, tlpColor)
    ensures exists o, k :: o in objs && BuiltFrom(e, o, k, feedTags, tlpColor)
  {
    var front := objs[..|objs| - 1];
    if e in IndicatorsOf(front, feedTags, tlpColor) {
      ParsedIndicatorShape(front, feedTags, tlpColor, e);
      var o, k :| o in front && BuiltFrom(e, o, k, feedTags, tlpColor);
      assert o in objs;
    } else {
      var o := objs[|objs| - 1];
      EntitiesForShape(o, Unit42TypesToDemistoTypes, feedTags, tlpColor, e);
      var k :| 0 <= k < |Unit42TypesToDemistoTypes| && Classifies(o.pattern, Unit42TypesToDemistoTypes[k])
               && e == NewIndicator(o, Unit42TypesToDemistoTypes[k].1, feedTags, tlpColor);
      assert BuiltFrom(e, o, k, feedTags, tlpColor);
    }
  }

  /** A pattern that starts with no known key adds nothing: the object is dropped. */
  lemma UnclassifiedDropped(objs: seq<StixObject>, o: StixObject, feedTags: seq<string>, tlpColor: Option<string>)
    requires forall k :: 0 <= k < |Unit42TypesToDemistoTypes| ==> !Classifies(o.pattern, Unit42TypesToDemistoTypes[k])
    ensures IndicatorsOf(objs + [o], feedTags, tlpColor) == IndicatorsOf(objs, feedTags, tlpColor)
  {
    assert (objs + [o])[..|objs|] == objs;
    EntitiesForCount(o, Unit42TypesToDemistoTypes, feedTags, tlpColor);
    NoMatchCountsZero(o.pattern, Unit42TypesToDemistoTypes);
  }

  lemma {:induction false} NoMatchCountsZero(pattern: string, table: TypeTable)
    requires forall k :: 0 <= k < |table| ==> !Classifies(pattern, table[k])
    ensures MatchCount(pattern, table) == 0
  {
    if table != [] {
      NoMatchCountsZero(pattern, table[..|table| - 1]);
    }
  }

  /** One more visit of the inner loop appends what `Emit` yields for that key. */
  lemma EntitiesForStep(o: StixObject, table: TypeTable, k: nat, feedTags: seq<string>, tlpColor: Option<string>)
    requires k < |table|
    ensures EntitiesFor(o, table[..k + 1], feedTags, tlpColor) == EntitiesFor(o, table[..k], feedTags, tlpColor) + Emit(o, table[k], feedTags, tlpColor)
  {
    assert table[..k + 1][..k] == table[..k];
  }

  /** A single object yields what the inner loop yields for it over the whole table. */
  lemma SingleObjectEntities(o: StixObject, feedTags: seq<string>, tlpColor: Option<string>)
    ensures IndicatorsOf([o], feedTags, tlpColor) == EntitiesFor(o, Unit42TypesToDemistoTypes, feedTags, tlpColor)
  {
    assert [o][..0] == [];
  }

  lemma {:induction false} NoKeyMatches(o: StixObject, table: TypeTable, feedTags: seq<string>, tlpColor: Option<string>)
    requires forall j | 0 <= j < |table| :: !Classifies(o.pattern, table[j])
    ensures EntitiesFor(o, table, feedTags, tlpColor) == []
  {
    if table != [] {
      NoKeyMatches(o, table[..|table| - 1], feedTags, tlpColor);
    }
  }

  /** When only key `k` classifies the pattern, the object yields exactly one entity, of that key's type. */
  lemma {:induction false} OneKeyMatches(o: StixObject, table: TypeTable, k: nat, feedTags: seq<string>, tlpColor: Option<string>)
    requires k < |table| && Classifies(o.pattern, table[k])
    requires forall j | 0 <= j < |table| && j != k :: !Classifies(o.pattern, table[j])
    ensures EntitiesFor(o, table, feedTags, tlpColor) == [NewIndicator(o, table[k].1, feedTags, tlpColor)]
  {
    var front := table[..|table| - 1];
    if k == |table| - 1 {
      NoKeyMatches(o, front, feedTags, tlpColor);
    } else {
      OneKeyMatches(o, front, k, feedTags, tlpColor);
    }
  }

  /** When exactly keys `k1 < k2` classify the pattern, the object yields two entities, in table order. */
  lemma {:induction false} TwoKeysMatch(o: StixObject, table: TypeTable, k1: nat, k2: nat, feedTags: seq<string>, tlpColor: Option<string>)
    requires k1 < k2 < |table| && Classifies(o.pattern, table[k1]) && Classifies(o.pattern, table[k2])
    requires forall j | 0 <= j < |table| && j != k1 && j != k2 :: !Classifies(o.pattern, table[j])
    ensures EntitiesFor(o, table, feedTags, tlpColor) ==
      [NewIndicator(o, table[k1].1, feedTags, tlpColor), NewIndicator(o, table[k2].1, feedTags, tlpColor)]
  {
    var front := table[..|table| - 1];
    if k2 == |table| - 1 {
      OneKeyMatches(o, front, k1, feedTags, tlpColor);
    } else {
      TwoKeysMatch(o, front, k1, k2, feedTags, tlpColor);
    }
  }

  /** A pattern that differs from key `entry`'s `[`-prefixed form at index `i` is not classified by it. */
  lemma KeyMismatch(p: string, entry: (string, IndicatorType), i: nat)
    requires i < |p| && i < |"[" + entry.0| && p[i] != ("[" + entry.0)[i]
    ensures !Classifies(p, entry)
  {
    DiffersAt(p, "[" + entry.0, i);
  }

  /**
   * The character after `[` tells the keys apart, except for the two `domain` keys, the two
   * `sha` keys and the two `ipv` keys, which `ipv4`/`ipv6` separate at index 4.
   */
  lemma KeyLetters()
    ensures forall j | 0 <= j < |Unit42TypesToDemistoTypes| :: 1 < |"[" + Unit42TypesToDemistoTypes[j].0|
    ensures forall j | 0 <= j < |Unit42TypesToDemistoTypes| ::
      ("[" + Unit42TypesToDemistoTypes[j].0)[1] == ['i', 'i', 'd', 'd', 'u', 'm', 's', 's', 'f'][j]
    ensures 4 < |"[" + Unit42TypesToDemistoTypes[1].0| && ("[" + Unit42TypesToDemistoTypes[1].0)[4] == '6'
  {
  }

  /**
   * A `[domain-name` pattern starts with both `[domain` and `[domain-name`, so it
   * yields two Domain entities.
   */
  lemma DomainNameYieldsTwoDomains(o: StixObject, feedTags: seq<string>, tlpColor: Option<string>)
    requires StartsWith(o.pattern, "[domain-name")
    ensures IndicatorsOf([o], feedTags, tlpColor) == [NewIndicator(o, Domain, feedTags, tlpColor), NewIndicator(o, Domain, feedTags, tlpColor)]
  {
    var p := o.pattern;
    var t := Unit42TypesToDemistoTypes;
    assert p[..12] == "[domain-name";
    assert Classifies(p, t[2]) by {
      assert "[" + t[2].0 == "[domain";
      assert p[..7] == p[..12][..7];
    }
    assert Classifies(p, t[3]) by {
      assert "[" + t[3].0 == "[domain-name";
    }
    assert p[1] == p[..12][1] == 'd';
    KeyLetters();
    forall j | 0 <= j < |t| && j != 2 && j != 3 ensures !Classifies(p, t[j]) {
      KeyMismatch(p, t[j], 1);
    }
    TwoKeysMatch(o, t, 2, 3, feedTags, tlpColor);
    SingleObjectEntities(o, feedTags, tlpColor);
  }

  /** An IPv4 pattern yields exactly one IP entity. */
  lemma Ipv4YieldsOneIp(o: StixObject, feedTags: seq<string>, tlpColor: Option<string>)
    requires StartsWith(o.pattern, "[ipv4-addr")
    ensures IndicatorsOf([o], feedTags, tlpColor) == [NewIndicator(o, IP, feedTags, tlpColor)]
  {
    var p := o.pattern;
    var t := Unit42TypesToDemistoTypes;
    assert p[..10] == "[ipv4-addr";
    assert Classifies(p, t[0]) by {
      assert "[" + t[0].0 == "[ipv4-addr";
    }
    assert p[1] == p[..10][1] == 'i';
    assert p[4] == p[..10][4] == '4';
    KeyLetters();
    forall j | 0 <= j < |t| && j != 0 ensures !Classifies(p, t[j]) {
      KeyMismatch(p, t[j], if j == 1 then 4 else 1);
    }
    OneKeyMatches(o, t, 0, feedTags, tlpColor);
    SingleObjectEntities(o, feedTags, tlpColor);
  }

  /** A `[file:hashes` pattern yields exactly one File entity. */
  lemma FileHashesYieldsOneFile(o: StixObject, feedTags: seq<string>, tlpColor: Option<string>)
    requires StartsWith(o.pattern, "[file:hashes")
    ensures IndicatorsOf([o], feedTags, tlpColor) == [NewIndicator(o, File, feedTags, tlpColor)]
  {
    var p := o.pattern;
    var t := Unit42TypesToDemistoTypes;
    assert p[..12] == "[file:hashes";
    assert Classifies(p, t[8]) by {
      assert "[" + t[8].0 == "[file:hashes";
    }
    assert p[1] == p[..12][1] == 'f';
    KeyLetters();
    forall j | 0 <= j < |t| && j != 8 ensures !Classifies(p, t[j]) {
      KeyMismatch(p, t[j], 1);
    }
    OneKeyMatches(o, t, 8, feedTags, tlpColor);
    SingleObjectEntities(o, feedTags, tlpColor);
  }

  // ---------------------------------------------------------------------------
  // parse_indicators_relationships (99-147)
  // ---------------------------------------------------------------------------

  /**
   * Processing relation `rel` does not raise: a related id that resolves to an object
   * is a string (line 117 calls `startswith` on it), and a resolved campaign or malware
   * has a name (a missing name would be iterated as a list at 137-138).
   */
  predicate IndicatorRelationSafe(rel: Id, idToObject: map<Id, StixObject>) {
    rel in idToObject ==>
      rel.Some? && ((KindOf(rel.value) == Campaign || KindOf(rel.value) == MalwareKind) ==> idToObject[rel].name.Some?)
  }

  predicate IndicatorSafe(e: Indicator, order: map<Id, seq<Id>>, idToObject: map<Id, StixObject>) {
    forall rel | rel in RelatedIds(order, e.fields.indicatorIdentification) :: IndicatorRelationSafe(rel, idToObject)
  }

  /** The entry of lines 139-144 for one external reference, if it has a url or an external id. */
  function MitreEntry(item: ExternalReference): seq<RelatedEntry> {
    if item.url.Some? || item.externalId.Some? then [RelatedEntry(MitreAttack, item.externalId, item.url)] else []
  }

  /** The entries the loop of 138-145 appends for `refs`. */
  function MitreEntries(refs: seq<ExternalReference>): seq<RelatedEntry> {
    if refs == [] then [] else MitreEntries(refs[..|refs| - 1]) + MitreEntry(refs[|refs| - 1])
  }

  /** Lines 132-135: extend the list, or create it holding just `name`. */
  function AddName(names: Option<seq<string>>, name: string): Option<seq<string>> {
    if names.Some? then Some(names.value + [name]) else Some([name])
  }

  /** What one iteration of the loop at 112 does to the indicator's fields. */
  function ApplyRelation(f: IndicatorFields, rel: Id, idToObject: map<Id, StixObject>): IndicatorFields
    requires IndicatorRelationSafe(rel, idToObject)
  {
    if rel !in idToObject then f
    else
      var obj := idToObject[rel];
      match KindOf(rel.value)
      case AttackPattern => f.(feedRelatedIndicators := Some(MitreEntries(obj.externalReferences)))
      case Campaign => f.(campaign := AddName(f.campaign, obj.name.value))
      case MalwareKind => f.(malwareFamily := AddName(f.malwareFamily, obj.name.value))
      case _ => f
  }

  /** The fields after processing the related ids `rels` in order. */
  function EnrichFields(f: IndicatorFields, rels: seq<Id>, idToObject: map<Id, StixObject>): IndicatorFields
    requires forall rel | rel in rels :: IndicatorRelationSafe(rel, idToObject)
  {
    if rels == [] then f
    else ApplyRelation(EnrichFields(f, rels[..|rels| - 1], idToObject), rels[|rels| - 1], idToObject)
  }

  /** The indicator after the loop at 112 has processed all its related ids. */
  function EnrichIndicator(e: Indicator, order: map<Id, seq<Id>>, idToObject: map<Id, StixObject>): Indicator
    requires IndicatorSafe(e, order, idToObject)
  {
    e.(fields := EnrichFields(e.fields, RelatedIds(order, e.fields.indicatorIdentification), idToObject))
  }

  /** Lines 138-145: one MITRE ATT&CK entry per external reference with a url or an external id. */
  method CollectMitreEntries(refs: seq<ExternalReference>) returns (entries: seq<RelatedEntry>)
    ensures entries == MitreEntries(refs)
  {
    entries := [];
    for k := 0 to |refs|
      invariant entries == MitreEntries(refs[..k])
    {
      var item := refs[k];
      assert refs[..k + 1][..k] == refs[..k];
      if item.url.Some? || item.externalId.Some? {
        entries := entries + [RelatedEntry(MitreAttack, item.externalId, item.url)];
      }
    }
    assert refs[..|refs|] == refs;
  }

  /** Lines 112-145 for one indicator: process its related ids in order. */
  method EnrichIndicatorFields(fields0: IndicatorFields, relations: seq<Id>, idToObject: map<Id, StixObject>)
    returns (fields: IndicatorFields)
    requires forall rel | rel in relations :: IndicatorRelationSafe(rel, idToObject)
    ensures fields == EnrichFields(fields0, relations, idToObject)
  {
    fields := fields0;
    for j := 0 to |relations|
      invariant fields == EnrichFields(fields0, relations[..j], idToObject)
    {
      var relation := relations[j];
      assert relation in relations;
      assert relations[..j + 1][..j] == relations[..j];
      assert EnrichFields(fields0, relations[..j + 1], idToObject) == ApplyRelation(fields, relation, idToObject);
      if relation in idToObject {
        var relationObject := idToObject[relation];
        match KindOf(relation.value)
        case AttackPattern =>
          // line 120 resets the list before the references are appended to it
          var entries := CollectMitreEntries(relationObject.externalReferences);
          fields := fields.(feedRelatedIndicators := Some(entries));
        case Campaign =>
          var name := relationObject.name.value;
          if fields.campaign.Some? {
            fields := fields.(campaign := Some(fields.campaign.value + [name]));
          } else {
            fields := fields.(campaign := Some([name]));
          }
        case MalwareKind =>
          var name := relationObject.name.value;
          if fields.malwareFamily.Some? {
            fields := fields.(malwareFamily := Some(fields.malwareFamily.value + [name]));
          } else {
            fields := fields.(malwareFamily := Some([name]));
          }
        case _ =>
          // any other kind: `continue`
      }
    }
    assert relations[..|relations|] == relations;
  }

  /**
   * Lines 99-147, updating each indicator's fields in place. `order` lists every set of
   * `matched_relationships` in the order Python iterates it.
   */
  method ParseIndicatorsRelationships(indicators: array<Indicator>, order: map<Id, seq<Id>>, idToObject: map<Id, StixObject>)
    requires forall i | 0 <= i < indicators.Length :: IndicatorSafe(indicators[i], order, idToObject)
    modifies indicators
    ensures forall i | 0 <= i < indicators.Length :: indicators[i] == EnrichIndicator(old(indicators[i]), order, idToObject)
  {
    for i := 0 to indicators.Length
      invariant forall k | 0 <= k < i :: indicators[k] == EnrichIndicator(old(indicators[k]), order, idToObject)
      invariant forall k | i <= k < indicators.Length :: indicators[k] == old(indicators[k])
    {
      var indicator := indicators[i];
      var relations := RelatedIds(order, indicator.fields.indicatorIdentification);
      var fields := EnrichIndicatorFields(indicator.fields, relations, idToObject);
      indicators[i] := indicator.(fields := fields);
    }
  }

  /** The names of the related objects of kind `kind` that resolve, in relation order. */
  function KindNames(rels: seq<Id>, kind: Kind, idToObject: map<Id, StixObject>): seq<string>
    requires kind == Campaign || kind == MalwareKind
    requires forall rel | rel in rels :: IndicatorRelationSafe(rel, idToObject)
  {
    if rels == [] then []
    else
      var last := rels[|rels| - 1];
      assert IndicatorRelationSafe(last, idToObject) by { assert last in rels; }
      KindNames(rels[..|rels| - 1], kind, idToObject)
        + (if last in idToObject && KindOf(last.value) == kind then [idToObject[last].name.value] else [])
  }

  /** A name list after appending `names` to it; untouched (possibly absent) when there are none. */
  function Accumulate(list: Option<seq<string>>, names: seq<string>): Option<seq<string>> {
    if names == [] then list else Some(list.GetOr([]) + names)
  }

  /**
   * Malware and campaign names accumulate: the lists end as they began followed by the
   * name of every resolved malware (campaign) relation, in relation order.
   */
  lemma {:induction false} NamesAccumulate(f: IndicatorFields, rels: seq<Id>, idToObject: map<Id, StixObject>)
    requires forall rel | rel in rels :: IndicatorRelationSafe(rel, idToObject)
    ensures EnrichFields(f, rels, idToObject).malwareFamily == Accumulate(f.malwareFamily, KindNames(rels, MalwareKind, idToObject))
    ensures EnrichFields(f, rels, idToObject).campaign == Accumulate(f.campaign, KindNames(rels, Campaign, idToObject))
  {
    if rels != [] {
      var front := rels[..|rels| - 1];
      var last := rels[|rels| - 1];
      assert IndicatorRelationSafe(last, idToObject) by { assert last in rels; }
      NamesAccumulate(f, front, idToObject);
      var g := EnrichFields(f, front, idToObject);
      var mal := KindNames(front, MalwareKind, idToObject);
      var cam := KindNames(front, Campaign, idToObject);
      if last in idToObject && KindOf(last.value) == MalwareKind {
        var name := idToObject[last].name.value;
        assert KindNames(rels, MalwareKind, idToObject) == mal + [name];
        assert KindNames(rels, Campaign, idToObject) == cam + [] == cam;
        assert EnrichFields(f, rels, idToObject).malwareFamily == AddName(g.malwareFamily, name);
        assert f.malwareFamily.GetOr([]) + mal + [name] == f.malwareFamily.GetOr([]) + (mal + [name]);
        assert [] + [name] == [name];
      } else if last in idToObject && KindOf(last.value) == Campaign {
        var name := idToObject[last].name.value;
        assert KindNames(rels, Campaign, idToObject) == cam + [name];
        assert KindNames(rels, MalwareKind, idToObject) == mal + [] == mal;
        assert EnrichFields(f, rels, idToObject).campaign == AddName(g.campaign, name);
        assert f.campaign.GetOr([]) + cam + [name] == f.campaign.GetOr([]) + (cam + [name]);
        assert [] + [name] == [name];
      } else {
        assert KindNames(rels, Campaign, idToObject) == cam + [] == cam;
        assert KindNames(rels, MalwareKind, idToObject) == mal + [] == mal;
      }
    }
  }

  /** The related id resolves to an attack pattern. */
  predicate IsAttackPatternRelation(rel: Id, idToObject: map<Id, StixObject>) {
    rel in idToObject && rel.Some? && KindOf(rel.value) == AttackPattern
  }

  /**
   * Each attack-pattern relation resets `feedrelatedindicators` (line 120): afterwards the
   * field holds exactly the entries of the last attack-pattern relation processed, and is
   * left as it was when there is none.
   */
  lemma {:induction false} AttackPatternLastWins(f: IndicatorFields, rels: seq<Id>, idToObject: map<Id, StixObject>)
    requires forall rel | rel in rels :: IndicatorRelationSafe(rel, idToObject)
    ensures (forall k | 0 <= k < |rels| :: !IsAttackPatternRelation(rels[k], idToObject)) ==>
      EnrichFields(f, rels, idToObject).feedRelatedIndicators == f.feedRelatedIndicators
    ensures forall k | 0 <= k < |rels| && IsAttackPatternRelation(rels[k], idToObject)
                       && (forall j | k < j < |rels| :: !IsAttackPatternRelation(rels[j], idToObject)) ::
      EnrichFields(f, rels, idToObject).feedRelatedIndicators == Some(MitreEntries(idToObject[rels[k]].externalReferences))
  {
    if rels != [] {
      var n := |rels| - 1;
      var front := rels[..n];
      forall rel | rel in front ensures IndicatorRelationSafe(rel, idToObject) { assert rel in rels; }
      AttackPatternLastWins(f, front, idToObject);
      assert rels[n] in rels;
      var before := EnrichFields(f, front, idToObject);
      assert EnrichFields(f, rels, idToObject) == ApplyRelation(before, rels[n], idToObject);
      ApplyRelationResets(before, rels[n], idToObject);
      if IsAttackPatternRelation(rels[n], idToObject) {
        forall k | 0 <= k < |rels| && IsAttackPatternRelation(rels[k], idToObject)
                   && (forall j | k < j < |rels| :: !IsAttackPatternRelation(rels[j], idToObject))
          ensures k == n
        {
        }
      } else {
        forall k | 0 <= k < n ensures front[k] == rels[k] { }
        forall k | 0 <= k < |rels| && IsAttackPatternRelation(rels[k], idToObject)
                   && (forall j | k < j < |rels| :: !IsAttackPatternRelation(rels[j], idToObject))
          ensures EnrichFields(f, rels, idToObject).feedRelatedIndicators == Some(MitreEntries(idToObject[rels[k]].externalReferences))
        {
          assert k != n;
          forall j | k < j < |front| ensures !IsAttackPatternRelation(front[j], idToObject) {
            assert front[j] == rels[j];
          }
        }
      }
    }
  }

  lemma ApplyRelationResets(f: IndicatorFields, rel: Id, idToObject: map<Id, StixObject>)
    requires IndicatorRelationSafe(rel, idToObject)
    ensures ApplyRelation(f, rel, idToObject).feedRelatedIndicators ==
      if IsAttackPatternRelation(rel, idToObject) then Some(MitreEntries(idToObject[rel].externalReferences)) else f.feedRelatedIndicators
  {
  }

  /** The loop changes no field but `feedrelatedindicators`, `campaign` and `malwarefamily`. */
  lemma {:induction false} OtherFieldsUnchanged(f: IndicatorFields, rels: seq<Id>, idToObject: map<Id, StixObject>)
    requires forall rel | rel in rels :: IndicatorRelationSafe(rel, idToObject)
    ensures EnrichFields(f, rels, idToObject).(feedRelatedIndicators := f.feedRelatedIndicators,
                                               campaign := f.campaign, malwareFamily := f.malwareFamily) == f
  {
    if rels != [] {
      OtherFieldsUnchanged(f, rels[..|rels| - 1], idToObject);
    }
  }

  /** Relations that do not resolve, or resolve to a kind other than the three handled, change nothing. */
  lemma {:induction false} IgnoredRelationsChangeNothing(f: IndicatorFields, rels: seq<Id>, idToObject: map<Id, StixObject>)
    requires forall rel | rel in rels :: IndicatorRelationSafe(rel, idToObject)
    requires forall rel | rel in rels && rel in idToObject && rel.Some? :: KindOf(rel.value) == IndicatorKind || KindOf(rel.value) == OtherKind
    ensures EnrichFields(f, rels, idToObject) == f
  {
    if rels != [] {
      assert rels[|rels| - 1] in rels;
      IgnoredRelationsChangeNothing(f, rels[..|rels| - 1], idToObject);
    }
  }

  /** One MITRE ATT&CK entry per external reference that has a url or an external id. */
  lemma {:induction false} MitreEntriesMembers(refs: seq<ExternalReference>)
    ensures |MitreEntries(refs)| <= |refs|
    ensures forall e :: e in MitreEntries(refs) <==>
      exists r :: r in refs && (r.url.Some? || r.externalId.Some?) && e == RelatedEntry(MitreAttack, r.externalId, r.url)
  {
    if refs != [] {
      var front := refs[..|refs| - 1];
      MitreEntriesMembers(front);
      assert refs == front + [refs[|refs| - 1]];
    }
  }
}
