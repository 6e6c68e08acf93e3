# FeedUnit42 enrichment pipeline, in Dafny

This project models the in-memory part of the Unit 42 threat-intelligence feed integration
(`Packs/FeedUnit42/Integrations/FeedUnit42/FeedUnit42.py`). Once the six STIX object
collections (reports, indicators, malware, campaigns, attack patterns, relationships) have
been fetched, the feed does the following:

- builds an undirected relationship graph (`match_relationships`);
- splits the report objects into main and sub lists (`sort_report_objects_by_type`);
- indexes every object by id;
- turns indicator objects into typed indicator entities, using the prefix table
  `UNIT42_TYPES_TO_DEMISTO_TYPES` (`parse_indicators`);
- enriches those entities in place with campaign names, malware-family names and
  MITRE ATT&CK references (`parse_indicators_relationships`);
- turns main reports into `STIX Report` entities (`parse_reports`);
- fills each report's `feedrelatedindicators` in place, from the malware of its sub-reports
  and from its direct relations (`parse_reports_relationships`);
- returns the indicators followed by the reports (`fetch_indicators`, lines 362-382).

Modules, one file each:

- `Wrappers`: `Option`.
- `Strings`: Python's `startswith`, duplicate-freedom, deduplication, `str.join`.
- `Stix`: the records, the type table, the entry constants, the id-prefix dispatch, tags, traffic light.
- `Graph`: `match_relationships`, and the iteration order of Python sets.
- `Indicators`: `parse_indicators` and `parse_indicators_relationships`.
- `Reports`: `sort_report_objects_by_type`, `parse_reports` and `parse_reports_relationships`.
- `Feed`: the id index and the assembly.

## How loops and in-place updates are modelled

Each Python loop that builds a list or a dictionary is a Dafny `method` with a `for` loop.
Its postcondition ties the result to a specification function, and the loop invariant
states that function for the prefix visited so far. Most of these functions are defined by
recursion on the prefix of the input, for example `IndicatorsOf` for `ParseIndicators`,
`MainReports`/`SubReports` for `SortReportObjectsByType` and `MalwareIds` for
`CollectReportMalware`. `GraphOf`, the function for `MatchRelationships`, is instead a
closed-form map comprehension over the relationships; `Graph.GraphOfSnoc` supplies the
step from one prefix to the next. `ParseReports` is specified element by element: the
`i`-th report is `NewReport` of the `i`-th object. The properties the source promises are
then proved as lemmas about those functions.

The two `*_relationships` functions mutate the entity dictionaries they receive. In the
model they are methods over an `array` of entity values with `modifies`. Their
postconditions say that every element is replaced by the enriched version of its old value.
Where a Python loop body is long, part of it is a separate method that changes nothing and
returns what that part of the body appends. `ClassifyObject`, `CollectMitreEntries`,
`SummarizeAttackPattern` and `ResolveDirectRelations` are such methods.

Python iterates the sets of `matched_relationships` in an order of its own choosing. The
model passes this order explicitly: an `order: map<Id, seq<Id>>` that lists each set once
(`Graph.Lists`). `FetchIndicators` picks one with `Graph.ListGraph`. Its postcondition says
the result is the assembled list for *some* such order. Order-independent facts, such as
safety and membership, are stated with `Graph.Neighbours` and linked to any listing by
`Feed.RelatedIdsNeighbours`.

Inputs on which the source raises an exception are excluded by preconditions rather than
modelled as errors:

- `Indicators.IndicatorSafe`, for a resolved campaign or malware without a name, which would be
  iterated as a list at 137-138, and for a related `None` that resolves. Such a `None` occurs
  when a relationship lacks an endpoint and an object without an `id` is indexed under `None`
  at 368; `None.startswith` raises at 117;
- `Reports.ReportSafe`, for a dangling malware id dereferenced at 244-248, for a resolved
  indicator or malware without a name, which would be iterated at 280, and for a related
  `None` that resolves, on which `startswith` raises at 257;
- `Feed.FetchSafe`, which states both conditions for the whole input without reference to
  iteration order.

`pattern`, `labels`, `object_refs` and `external_references` are read in ways that raise when
they are missing, so they are plain (non-optional) attributes of `Stix.StixObject`.

## Quirks of the code the model pins down

- **Indicator classification.** The loop over the table at 76-94 has no `break`, so every
  key whose `[`-prefixed form starts the pattern yields an entity. A `[domain-name…` pattern
  starts with both `[domain` and `[domain-name` and yields two Domain entities
  (`Indicators.DomainNameYieldsTwoDomains`).
- **Report partitioning.** The loop at 162-168 appends the object to the main list once per
  `report` reference and to the sub list once per other reference. The `continue` at 166
  only skips the sub-list append (`Reports.SortReportObjectsByType`,
  `Reports.MainMultiplicity`).
- **Direct report relations.** Line 252 reads `report.get('id')`, but the entity built at
  187-209 has no top-level `id` key, so the lookup is under `None`. `Reports.Report` carries
  that key as `id`, and `Reports.NewReport` leaves it `None`. When every relationship names
  both endpoints, no direct entries are added (`Reports.DeadLookupAddsNothing`,
  `Feed.WellFormedReportsGetOnlyMalware`).
- **Dangling references.** A related id that does not resolve is skipped (114-115,
  253-255). A malware id collected from a sub-report that does not resolve is dereferenced
  at 248 and raises, so the model has a precondition for it.
- **Relation annotations on indicators.** Each attack-pattern relation resets
  `feedrelatedindicators` at 120, so only the last one survives
  (`Indicators.AttackPatternLastWins`). An indicator with no relation gets no relation
  fields at all, rather than empty ones (`Feed.NoRelationshipsLeaveIndicators`). Reports,
  by contrast, always get a fresh list at 241.

## Model

| member | source | states |
|---|---|---|
| Stix.KindOfPrefix | Packs/FeedUnit42/Integrations/FeedUnit42/FeedUnit42.py:117-128 | the id-prefix dispatch reports attack-pattern, campaign, indicator or malware exactly when the id starts with that prefix, so the order of the `startswith` tests does not matter |
| Stix.Tags | Packs/FeedUnit42/Integrations/FeedUnit42/FeedUnit42.py:85 | the tag list has no repeated element and holds exactly the labels and the feed tags |
| Strings.DiffersAt | Packs/FeedUnit42/Integrations/FeedUnit42/FeedUnit42.py:77 | a string that differs from a prefix at a position both have does not start with it |
| Strings.Dedup | Packs/FeedUnit42/Integrations/FeedUnit42/FeedUnit42.py:196 | `list(set(...))`: no repeated element, and the same members as the input |
| Strings.Join | Packs/FeedUnit42/Integrations/FeedUnit42/FeedUnit42.py:290 | `','.join(all_urls)`: no urls give `''` and a single url gives that url |
| Strings.JoinLength | Packs/FeedUnit42/Integrations/FeedUnit42/FeedUnit42.py:290 | a non-empty join is as long as all the parts together plus one separator between each two neighbours |
| Indicators.KeyMismatch | Packs/FeedUnit42/Integrations/FeedUnit42/FeedUnit42.py:77 | a pattern that differs from a key's `[`-prefixed form at some index of both is not classified by that key |
| Indicators.KeyLetters | Packs/FeedUnit42/Integrations/FeedUnit42/FeedUnit42.py:13-23 | the character after `[` of each table key, in table order, and the `6` that separates `ipv6-addr` from `ipv4-addr` |
| Graph.GraphOfSnoc | Packs/FeedUnit42/Integrations/FeedUnit42/FeedUnit42.py:311-319 | one more relationship adds its target to its source's set and its source to its target's set, creating either set when the id is new |
| Graph.MatchRelationships | Packs/FeedUnit42/Integrations/FeedUnit42/FeedUnit42.py:305-321 | the dictionary built maps every endpoint to the set of ids joined to it by some relationship, in either direction |
| Graph.GraphLinks | Packs/FeedUnit42/Integrations/FeedUnit42/FeedUnit42.py:305-321 | `y` is in the set of `x` if and only if some relationship joins `x` and `y` in one direction or the other |
| Graph.GraphSymmetric | Packs/FeedUnit42/Integrations/FeedUnit42/FeedUnit42.py:305-321 | `y` in `matches[x]` implies `x` in `matches[y]` |
| Graph.GraphKeysNonEmpty | Packs/FeedUnit42/Integrations/FeedUnit42/FeedUnit42.py:305-321 | the keys are exactly the ids that occur as an endpoint, and no key maps to an empty set |
| Graph.NoneKeyIffMissingEndpoint | Packs/FeedUnit42/Integrations/FeedUnit42/FeedUnit42.py:308-319 | `None` becomes a key exactly when some relationship lacks a source or a target |
| Graph.IterationOrder | Packs/FeedUnit42/Integrations/FeedUnit42/FeedUnit42.py:112 | iterating a set visits each of its members once and nothing else |
| Graph.ListGraph | Packs/FeedUnit42/Integrations/FeedUnit42/FeedUnit42.py:252 | one iteration order for every set of the graph, covering exactly its keys |
| Indicators.ClassifyObject | Packs/FeedUnit42/Integrations/FeedUnit42/FeedUnit42.py:76-94 | the inner loop over the type table appends, in table order, one entity per key whose `[`-prefixed form starts the pattern |
| Indicators.ParseIndicators | Packs/FeedUnit42/Integrations/FeedUnit42/FeedUnit42.py:72-96 | the result is the entities of each object in object order, each object's in table order |
| Indicators.EntitiesForCount | Packs/FeedUnit42/Integrations/FeedUnit42/FeedUnit42.py:76-94 | an object yields exactly as many entities as there are table keys matching its pattern |
| Indicators.IndicatorsCount | Packs/FeedUnit42/Integrations/FeedUnit42/FeedUnit42.py:72-96 | the number of entities is the number of (object, matching key) pairs |
| Indicators.IndicatorsAppend | Packs/FeedUnit42/Integrations/FeedUnit42/FeedUnit42.py:74-94 | objects are handled independently and in order: the output for `a + b` is the output for `a` followed by that for `b` |
| Indicators.EntitiesForShape | Packs/FeedUnit42/Integrations/FeedUnit42/FeedUnit42.py:76-94 | every entity an object yields comes from a table key matching its pattern, with that key's type |
| Indicators.ParsedIndicatorShape | Packs/FeedUnit42/Integrations/FeedUnit42/FeedUnit42.py:78-92 | every entity comes from an input object and a matching key: its type is that key's, its value the object's name, its identification the object's id, its tags the labels and feed tags without repetition, a traffic-light field exactly when `tlp_color` is truthy, and no relation field yet |
| Indicators.UnclassifiedDropped | Packs/FeedUnit42/Integrations/FeedUnit42/FeedUnit42.py:76-77 | an object whose pattern matches no key contributes nothing |
| Indicators.OneKeyMatches | Packs/FeedUnit42/Integrations/FeedUnit42/FeedUnit42.py:76-94 | a pattern matching exactly one key yields exactly one entity, of that key's type |
| Indicators.TwoKeysMatch | Packs/FeedUnit42/Integrations/FeedUnit42/FeedUnit42.py:76-94 | a pattern matching exactly two keys yields two entities in table order: the loop does not stop at the first match |
| Indicators.DomainNameYieldsTwoDomains | Packs/FeedUnit42/Integrations/FeedUnit42/FeedUnit42.py:76-94 | a `[domain-name` pattern yields exactly two Domain entities, via the `domain` and `domain-name` keys of lines 16-17 |
| Indicators.Ipv4YieldsOneIp | Packs/FeedUnit42/Integrations/FeedUnit42/FeedUnit42.py:76-94 | an `[ipv4-addr` pattern yields exactly one IP entity |
| Indicators.FileHashesYieldsOneFile | Packs/FeedUnit42/Integrations/FeedUnit42/FeedUnit42.py:76-94 | a `[file:hashes` pattern yields exactly one File entity |
| Indicators.CollectMitreEntries | Packs/FeedUnit42/Integrations/FeedUnit42/FeedUnit42.py:138-145 | one MITRE ATT&CK entry per external reference with a url or an external id, in order |
| Indicators.MitreEntriesMembers | Packs/FeedUnit42/Integrations/FeedUnit42/FeedUnit42.py:138-145 | the entries are exactly `(MITRE ATT&CK, external id, url)` for the references having a url or an external id, and are no more numerous than the references |
| Indicators.EnrichIndicatorFields | Packs/FeedUnit42/Integrations/FeedUnit42/FeedUnit42.py:112-145 | processing an indicator's related ids in iteration order gives the fields of the relation-by-relation specification |
| Indicators.ParseIndicatorsRelationships | Packs/FeedUnit42/Integrations/FeedUnit42/FeedUnit42.py:110-147 | every indicator in the array is replaced by its enriched version, computed from its old value |
| Indicators.NamesAccumulate | Packs/FeedUnit42/Integrations/FeedUnit42/FeedUnit42.py:121-135 | `malwarefamily` (`campaign`) ends as it began followed by the name of every resolved malware (campaign) relation, in relation order; it is created only when there is one |
| Indicators.ApplyRelationResets | Packs/FeedUnit42/Integrations/FeedUnit42/FeedUnit42.py:117-120 | a resolved attack-pattern relation replaces `feedrelatedindicators` with its own entries; any other relation leaves it as it was |
| Indicators.AttackPatternLastWins | Packs/FeedUnit42/Integrations/FeedUnit42/FeedUnit42.py:117-145 | after the loop `feedrelatedindicators` holds exactly the entries of the last resolved attack-pattern relation, and is unchanged (absent for a fresh indicator) when there is none |
| Indicators.OtherFieldsUnchanged | Packs/FeedUnit42/Integrations/FeedUnit42/FeedUnit42.py:110-145 | the enrichment changes no field but `feedrelatedindicators`, `campaign` and `malwarefamily` |
| Indicators.IgnoredRelationsChangeNothing | Packs/FeedUnit42/Integrations/FeedUnit42/FeedUnit42.py:112-128 | relations that do not resolve, or resolve to an indicator or another unhandled kind, leave the fields unchanged |
| Reports.SortReportObjectsByType | Packs/FeedUnit42/Integrations/FeedUnit42/FeedUnit42.py:159-170 | the main list holds each object once per `report` reference and the sub list once per other reference, in input order |
| Reports.RefCountsSplit | Packs/FeedUnit42/Integrations/FeedUnit42/FeedUnit42.py:162-168 | each reference of an object causes exactly one append, to one of the two lists |
| Reports.SortedTotal | Packs/FeedUnit42/Integrations/FeedUnit42/FeedUnit42.py:159-170 | the two lists together are as long as the total number of references |
| Reports.SortedMembership | Packs/FeedUnit42/Integrations/FeedUnit42/FeedUnit42.py:162-168 | an object is in the main list if and only if it holds a `report` reference, and in the sub list if and only if it holds another reference; an object with no references is in neither |
| Reports.MainMultiplicity | Packs/FeedUnit42/Integrations/FeedUnit42/FeedUnit42.py:162-166 | an object occurs in the main list its input multiplicity times its number of `report` references |
| Reports.ParseReports | Packs/FeedUnit42/Integrations/FeedUnit42/FeedUnit42.py:184-213 | one entity per input object, in order, duplicates kept, each of type `STIX Report`, with no top-level id, the object's name, id, published date, description (`''` when absent) and references, reporter `Unit42`, tags without repetition, a traffic-light field exactly when `tlp_color` is truthy, and no related entries yet |
| Reports.WithPrefix | Packs/FeedUnit42/Integrations/FeedUnit42/FeedUnit42.py:230-231 | the filtered list holds exactly the references starting with the prefix |
| Reports.CollectReportMalware | Packs/FeedUnit42/Integrations/FeedUnit42/FeedUnit42.py:230-239 | the malware list is, in sub-report order, the `malware` references of every sub-report whose id is among the report's `report` references |
| Reports.MalwareIdsMembers | Packs/FeedUnit42/Integrations/FeedUnit42/FeedUnit42.py:233-239 | an id is collected if and only if some sub-report the report refers to lists it and it starts with `malware` |
| Reports.MalwareIdsAppend | Packs/FeedUnit42/Integrations/FeedUnit42/FeedUnit42.py:235-239 | sub-reports contribute independently and in order, so a sub-report listed twice contributes its malware twice |
| Reports.ResolveMalware | Packs/FeedUnit42/Integrations/FeedUnit42/FeedUnit42.py:243-250 | one `Malware` entry per collected id, in order |
| Reports.MalwareEntriesAt | Packs/FeedUnit42/Integrations/FeedUnit42/FeedUnit42.py:243-250 | there are as many `Malware` entries as collected ids, and the `i`-th carries the name of the object the `i`-th id resolves to and its description or `No description provided.` |
| Reports.ReferenceUrls | Packs/FeedUnit42/Integrations/FeedUnit42/FeedUnit42.py:280-282 | the collected urls are exactly those of the references having one, and are no more numerous than the references |
| Reports.LastExternalIdIsLast | Packs/FeedUnit42/Integrations/FeedUnit42/FeedUnit42.py:278-285 | the value is the external id of the last reference having both a url and an external id, or `''` when there is none |
| Reports.SummarizeAttackPattern | Packs/FeedUnit42/Integrations/FeedUnit42/FeedUnit42.py:277-291 | one MITRE ATT&CK entry per attack-pattern relation, its description the comma-join of every url and its value the surviving external id |
| Reports.DirectEntryLength | Packs/FeedUnit42/Integrations/FeedUnit42/FeedUnit42.py:253-291 | a direct relation adds one entry when it resolves to an attack pattern, an indicator or a malware, and none otherwise |
| Reports.DirectEntriesCount | Packs/FeedUnit42/Integrations/FeedUnit42/FeedUnit42.py:252-291 | the direct entries are as many as the handled relations |
| Reports.ResolveDirectRelations | Packs/FeedUnit42/Integrations/FeedUnit42/FeedUnit42.py:252-291 | the entries appended for the related ids, relation by relation, in iteration order |
| Reports.CollectRelatedEntries | Packs/FeedUnit42/Integrations/FeedUnit42/FeedUnit42.py:229-291 | a report's related entries are its sub-reports' malware entries followed by its direct-relation entries |
| Reports.ParseReportsRelationships | Packs/FeedUnit42/Integrations/FeedUnit42/FeedUnit42.py:229-293 | every report in the array is replaced by its enriched version, computed from its old value |
| Reports.EnrichKeepsReport | Packs/FeedUnit42/Integrations/FeedUnit42/FeedUnit42.py:241 | the enrichment sets `feedrelatedindicators` to the related entries; with that field put back, the entity is exactly what `parse_reports` built, so the type, name, id, published date, description, `Unit42` reporter, tags, traffic light and references are kept |
| Reports.ResetDiscardsEarlierEntries | Packs/FeedUnit42/Integrations/FeedUnit42/FeedUnit42.py:241 | whatever the field held before, the enriched report is the same: the list is replaced, not extended |
| Reports.DeadLookupAddsNothing | Packs/FeedUnit42/Integrations/FeedUnit42/FeedUnit42.py:252 | for a report built by `parse_reports`, when `None` is not a graph key, the related entries are exactly its sub-reports' malware entries |
| Feed.IdToObject | Packs/FeedUnit42/Integrations/FeedUnit42/FeedUnit42.py:367-371 | the index has exactly the ids of the objects as keys |
| Feed.IdToObjectLastWins | Packs/FeedUnit42/Integrations/FeedUnit42/FeedUnit42.py:367-371 | each id maps to the last object in the concatenated list that carries it |
| Feed.RelatedIdsNeighbours | Packs/FeedUnit42/Integrations/FeedUnit42/FeedUnit42.py:112 | whatever order the sets are iterated in, the ids a lookup visits are exactly the ids joined to the key by some relationship |
| Feed.IndicatorStage | Packs/FeedUnit42/Integrations/FeedUnit42/FeedUnit42.py:375-376 | the indicators are parsed and then enriched in place |
| Feed.ReportStage | Packs/FeedUnit42/Integrations/FeedUnit42/FeedUnit42.py:378-379 | one report per main report object, each enriched in place |
| Feed.FetchIndicators | Packs/FeedUnit42/Integrations/FeedUnit42/FeedUnit42.py:362-382 | for some iteration order of the graph's sets, the result is the enriched indicators followed by the enriched main reports |
| Feed.FetchLayout | Packs/FeedUnit42/Integrations/FeedUnit42/FeedUnit42.py:375-382 | the result has one item per (indicator object, matching key) pair plus one per main report, and the indicators come first |
| Feed.ReportAt | Packs/FeedUnit42/Integrations/FeedUnit42/FeedUnit42.py:378-382 | the item just past the indicators at offset `j` is the enriched report of the `j`-th main report object |
| Feed.FetchedReport | Packs/FeedUnit42/Integrations/FeedUnit42/FeedUnit42.py:378-382 | each report item has no top-level id, type `STIX Report`, its main report object's name, id, published date, description (`''` when absent) and references, reporter `Unit42`, the labels and feed tags without repetition, a traffic-light field exactly when `tlp_color` is truthy, and its related entries set |
| Feed.WellFormedReportsGetOnlyMalware | Packs/FeedUnit42/Integrations/FeedUnit42/FeedUnit42.py:379 | when every relationship names both endpoints, each report's related entries are exactly its sub-reports' malware entries |
| Feed.NoRelationshipsLeaveIndicators | Packs/FeedUnit42/Integrations/FeedUnit42/FeedUnit42.py:373-376 | with no relationships, every indicator is returned as `parse_indicators` built it |

## Left out

- Fetching (`Client.get_stix_objects`, lines 40-60): TAXII paging through a foreign library, network I/O. The six collections are parameters of `Feed.FetchIndicators`.
- The process pool of `fetch_indicators` (357-360) and `multiprocessing_wrapper_get_stix_objects` (336-344): this is concurrency, and the model starts at line 362.
- `test_module`, `get_indicators_command`, `main` and the logging at 364-365 and 381: these are platform plumbing with no effect on the result.
- `rawJSON` contents beyond what the enrichment reads: an indicator keeps its whole raw object; a report keeps only `unit42_object_refs`. The other copied keys have no logic.
- A `None` or falsy indicator list at line 73 is not modelled: the input is always a sequence, and the empty sequence yields `[]`.
- A key that is present with value `None` is treated like an absent key, for example `description` at 194, 249 and 273 and `url`/`external_id` at 139 and 281. An empty object `{}`, which is falsy at 114 and 254, is not modelled.
- Names and references are strings. The `isinstance` tests at 130 and 269 are replaced by the kind of the relation: campaigns, malware and indicators have names; attack patterns have reference lists.
- Strings.Join: its own contract covers only the empty and one-part cases; `Strings.JoinLength` adds the length of the result, and no lemma states where each part sits in it.
- Stix.Tags: keeps first-occurrence order, because Python's set order is unspecified. Only the duplicate-free membership is promised.
- Graph.ListGraph: picks an arbitrary iteration order, not the one CPython would use.
- Feed.FetchIndicators: promises the result for some iteration order of the graph's sets, not for the one Python uses. Order-independent consequences are stated in the lemmas that follow it.
- Inputs on which the source raises are excluded by `Feed.FetchSafe`, `Indicators.IndicatorSafe` and `Reports.ReportSafe`; the exceptions themselves are not modelled.
