/**
 * The STIX records the Unit 42 feed delivers, the entries the enrichment attaches
 * to entities, and the tables the feed's code consults.
 */
module Stix {
  import opened Wrappers
  import opened Strings

  /** An object id as read with `obj.get('id')`: `None` when the key is missing. */
  type Id = Option<string>

  /** One element of an attack pattern's `external_references`; a missing key is `None`. */
  datatype ExternalReference = ExternalReference(url: Option<string>, externalId: Option<string>)

  /**
   * A raw STIX object of any kind. Attributes that the code reads with `.get` and
   * tolerates missing are options; `pattern`, `labels`, `object_refs` and
   * `external_references` are read in ways that raise when they are missing, so a
   * record always carries them (empty for kinds that do not use them).
   */
  datatype StixObject = StixObject(
    id: Id,
    pattern: string,
    name: Option<string>,
    description: Option<string>,
    labels: seq<string>,
    objectRefs: seq<string>,
    externalReferences: seq<ExternalReference>,
    created: Option<string>,
    modified: Option<string>,
    published: Option<string>)

  /** A relationship object; only its two endpoints are read. */
  datatype Relationship = Relationship(sourceRef: Id, targetRef: Id)

  /** The platform's indicator types the feed produces. */
  datatype IndicatorType = IP | IPv6 | Domain | URL | File

  /** `UNIT42_TYPES_TO_DEMISTO_TYPES`, in the dictionary's iteration (insertion) order. */
  const Unit42TypesToDemistoTypes: seq<(string, IndicatorType)> := [
    ("ipv4-addr", IP),
    ("ipv6-addr", IPv6),
    ("domain", Domain),
    ("domain-name", Domain),
    ("url", URL),
    ("md5", File),
    ("sha-1", File),
    ("sha-256", File),
    ("file:hashes", File)
  ]

  const ReportedBy := "Unit42"
  const StixReport := "STIX Report"
  const MitreAttack := "MITRE ATT&CK"
  const MalwareEntryType := "Malware"
  const IndicatorEntryType := "Indicator"
  const NoDescription := "No description provided."

  /** One element of a `feedrelatedindicators` list: `{'type', 'value', 'description'}`. */
  datatype RelatedEntry = RelatedEntry(entryType: string, value: Option<string>, description: Option<string>)

  /** The kind of a related object, read off its id prefix. */
  datatype Kind = AttackPattern | Campaign | IndicatorKind | MalwareKind | OtherKind

  /**
   * The `startswith` dispatch on related ids. The prefixes begin with different
   * letters, so at most one of them matches and the order of the tests does not matter.
   */
  function KindOf(id: string): Kind {
    if StartsWith(id, "attack-pattern") then AttackPattern
    else if StartsWith(id, "campaign") then Campaign
    else if StartsWith(id, "indicator") then IndicatorKind
    else if StartsWith(id, "malware") then MalwareKind
    else OtherKind
  }

  /** Each kind is reported exactly when its prefix matches, whatever the order of the tests. */
  lemma KindOfPrefix(id: string)
    ensures KindOf(id) == AttackPattern <==> StartsWith(id, "attack-pattern")
    ensures KindOf(id) == Campaign <==> StartsWith(id, "campaign")
    ensures KindOf(id) == IndicatorKind <==> StartsWith(id, "indicator")
    ensures KindOf(id) == MalwareKind <==> StartsWith(id, "malware")
  {
    if StartsWith(id, "attack-pattern") { assert id[0] == "attack-pattern"[0]; }
    if StartsWith(id, "campaign") { assert id[0] == "campaign"[0]; }
    if StartsWith(id, "indicator") { assert id[0] == "indicator"[0]; }
    if StartsWith(id, "malware") { assert id[0] == "malware"[0]; }
  }

  /**
   * `list(set(labels).union(set(feed_tags)))`: every label and feed tag once. Python
   * leaves the order to the set; the model keeps first occurrences.
   */
  function Tags(labels: seq<string>, feedTags: seq<string>): (tags: seq<string>)
    ensures NoDup(tags)
    ensures forall t :: t in tags <==> t in labels || t in feedTags
  {
    Dedup(labels + feedTags)
  }

  /** The `trafficlightprotocol` field: set only when `tlp_color` is truthy (present and non-empty). */
  function TrafficLight(tlpColor: Option<string>): Option<string> {
    if tlpColor.Some? && tlpColor.value != "" then tlpColor else None
  }

  /** `matched_relationships.get(id, [])`, with each related-id set listed in iteration order. */
  function RelatedIds(order: map<Id, seq<Id>>, id: Id): seq<Id> {
    if id in order then order[id] else []
  }
}
