# mimirsbrunn core, modelled in Dafny

This project models five pieces of mimirsbrunn, the geocoding indexer and search stack, and proves properties of each model.

- **Elasticsearch adapter** (`EsModel`, `EsClassify`, `EsIndex`, `EsInsert`, `EsScan`). This covers:
  - the error taxonomy;
  - classification of a backend exception by its root-cause reason (the ordered regular expressions become scanners proved against declarative match predicates);
  - the acknowledged-response checks for index creation, deletion, aliases and pipelines;
  - finding, refreshing and converting indices (`TryFrom<ElasticsearchIndex>`, `IndexStatus::from`);
  - the alias helpers;
  - bulk ingestion in chunks of ten, with its `InsertStats` counters;
  - `list_documents`, the `Start -> Next* -> End` paging machine over a point-in-time handle.

  The wire client is an oracle: every answer is a `Response` value given as a parameter.
- **Storage port** (`EsStorage`). This is `create_container`: parse the configuration, create the index, look it up again, and wrap every failure. It also models the alias-swap publication procedure that is commented out in the source, as a sketch over the backend's alias table `alias -> set of indices`.
- **OSM object store** (`OsmStore`). `DB` is a class: a write buffer in front of a table keyed by `(id, kind)` whose rows are written with insert-or-ignore. `ObjWrapper` is a class that dispatches either to a plain map or to a `DB`. The table is a map and serialization is the identity.
- **bragi query-parameter validators** (`BragiParams`). These are:
  - the coordinate bounds;
  - the lon/lat pairing rule;
  - the place-type and zone-type whitelists;
  - the nested polygon coordinate check;
  - the two parameter readers.

  JSON numbers distinguish integers from floats, and floats are reals.
- **osm2mimir settings** (`Osm2MimirSettings`). `Args::collect` is a method that inserts key by key. It is proved against a left fold over the arguments in source order. `Settings::new` is modelled with:
  - an abstract file system;
  - the compiled-in default configuration as a parameter;
  - deserialisation (`try_into`) as a function parameter.

`Common` holds `Option`, `Result`, a JSON value type and string helpers.

Notable behaviours of the code, which the model keeps:
- An index configuration whose `settings` text is not valid JSON still parses as a configuration, because `settings` is a string. Creation then fails while the spliced body is read, so the error is a container creation error wrapping a JSON deserialization error; `InvalidConfiguration` is reported only when the configuration text itself does not parse.
- `insert_chunk_in_index` stops counting at the first item that is not `created` and never increments `error`. So `created + updated + error` can be less than the number of documents (`EsInsert.CountsMayFallShort`).
- `check_coordinates` accepts only floats: serde's `is_f64` is false for an integer literal, so `[[[2, 48]]]` is a type error (`BragiParams.IntegerCoordinatesRefused`).

## Model

| member | source | states |
|---|---|---|
| EsClassify.RunEnd | libs/mimir2/src/adapters/secondary/elasticsearch/internal.rs:182 | the run of `[^\]/]` characters from q ends at the exact position where one of `]` or `/` appears, or at the end of the text |
| EsClassify.LineEnd | libs/mimir2/src/adapters/secondary/elasticsearch/internal.rs:182 | the stretch a `.*` can cover from k ends at the next newline or at the end of the text |
| EsClassify.FirstOnLine | libs/mimir2/src/adapters/secondary/elasticsearch/internal.rs:182 | the first occurrence of the tail reachable through `.*` from k, or none when no occurrence is reachable |
| EsClassify.LastBetween | libs/mimir2/src/adapters/secondary/elasticsearch/internal.rs:194 | the last occurrence of a text between two positions, or none when there is no occurrence there |
| EsClassify.TryAtIsMatchAt | libs/mimir2/src/adapters/secondary/elasticsearch/internal.rs:181-199 | the scanning test at a position succeeds iff the regular expression matches there |
| EsClassify.RunEndCovers | libs/mimir2/src/adapters/secondary/elasticsearch/internal.rs:182 | a run of name characters up to b is covered by the scanner's run |
| EsClassify.FirstOnLineFinds | libs/mimir2/src/adapters/secondary/elasticsearch/internal.rs:182 | a tail reachable through `.*` is found by the scanner |
| EsClassify.CaptureFrom | libs/mimir2/src/adapters/secondary/elasticsearch/internal.rs:181-199 | the leftmost position at or after i where the pattern matches, with the end of its first group; none when it matches nowhere there |
| EsClassify.WellFormedPatterns | libs/mimir2/src/adapters/secondary/elasticsearch/internal.rs:181-199 | each of the four bracket patterns has a tail starting with `]` |
| EsClassify.CaptureScan | libs/mimir2/src/adapters/secondary/elasticsearch/internal.rs:181-199 | a capture found by the scanner has a non-empty name followed on the same line by the tail |
| EsClassify.RunIsName | libs/mimir2/src/adapters/secondary/elasticsearch/internal.rs:182-198 | a non-empty run of name characters is the text up to, and not including, the first `]` or `/` |
| EsClassify.LeftmostName | libs/mimir2/src/adapters/secondary/elasticsearch/internal.rs:202-216 | the name after the prefix of the leftmost match is the group the engine reports |
| EsClassify.CaptureIsCapturedName | libs/mimir2/src/adapters/secondary/elasticsearch/internal.rs:202-216 | the scanner's capture is the leftmost match and its first group |
| EsClassify.NoCaptureNoMatch | libs/mimir2/src/adapters/secondary/elasticsearch/internal.rs:202-216 | when the scanner finds no capture, the regular expression matches nowhere |
| EsClassify.ContainsIsOccurs | libs/mimir2/src/adapters/secondary/elasticsearch/internal.rs:188-212 | the substring search used for `failed to parse` succeeds iff the text occurs |
| EsClassify.LastBetweenFinds | libs/mimir2/src/adapters/secondary/elasticsearch/internal.rs:194 | an occurrence between two positions is found by the search for the last one |
| EsClassify.GreedyTailFound | libs/mimir2/src/adapters/secondary/elasticsearch/internal.rs:194 | the greedy `.*` stops at the last tail on the line |
| EsClassify.RestOfLine | libs/mimir2/src/adapters/secondary/elasticsearch/internal.rs:194 | the text from q to the end of its line is the rest of the line |
| EsClassify.MappingTailFound | libs/mimir2/src/adapters/secondary/elasticsearch/internal.rs:193-211 | after the mapping object, the `]: ` the scanner uses is the greedy one, and the reason is the rest of that line |
| EsClassify.MappingGroups | libs/mimir2/src/adapters/secondary/elasticsearch/internal.rs:193-211 | the object and the reason are the two groups of the leftmost match of the mapping pattern |
| EsClassify.MappingReasonIsGroup | libs/mimir2/src/adapters/secondary/elasticsearch/internal.rs:208-211 | the reason the scanner reads is the mapping pattern's second group |
| EsClassify.NoNewlineUpToLineEnd | libs/mimir2/src/adapters/secondary/elasticsearch/internal.rs:194 | a newline-free stretch from k ends no later than k's line end |
| EsClassify.ClassifyReasonCascade | libs/mimir2/src/adapters/secondary/elasticsearch/internal.rs:200-221 | the first of the five patterns that matches decides the error, tried in the order duplicate, unknown index, mapping, failed to parse, unknown setting; captured names are the groups of the leftmost match; no match gives "Unidentified reason: " plus the reason |
| EsClassify.ClassifyWithoutRootCause | libs/mimir2/src/adapters/secondary/elasticsearch/internal.rs:167-178 | with no root cause the error is unhandled, with the details set to the top-level reason, or "Unspecified root cause or reason" when there is none |
| EsClassify.ClassifyFirstCauseOnly | libs/mimir2/src/adapters/secondary/elasticsearch/internal.rs:200-225 | exceptions whose first root causes are equal are classified alike; a first cause without a reason gives "Unspecified reason" |
| EsClassify.IsNameAtUnique | libs/mimir2/src/adapters/secondary/elasticsearch/internal.rs:182 | the name at a position is unique and ends where the run of name characters ends |
| EsClassify.RunEndAt | libs/mimir2/src/adapters/secondary/elasticsearch/internal.rs:182 | a run of name characters stopped by a non-name character ends there |
| EsClassify.LeadingCapture | libs/mimir2/src/adapters/secondary/elasticsearch/internal.rs:181-199 | a match of the pattern at position 0 with a given name fixes that name as the first group |
| EsClassify.DuplicateIndexMessage | libs/mimir2/src/adapters/secondary/elasticsearch/internal.rs:181-204 | `index [NAME/UUID] already exists` is classified as a duplicate of NAME |
| EsClassify.NoBracketedTail | libs/mimir2/src/adapters/secondary/elasticsearch/internal.rs:194 | a two-character tail that starts with `]` cannot occur in a text whose only `]` is its last character |
| EsClassify.UnknownIndexMessage | libs/mimir2/src/adapters/secondary/elasticsearch/internal.rs:184-207 | `no such index [NAME]` is classified as an unknown index NAME |
| EsClassify.ClassifyReason | libs/mimir2/src/adapters/secondary/elasticsearch/internal.rs:200-222 | the five-pattern cascade on a root cause's reason; its contract is stated by `ClassifyReasonCascade`, `DuplicateIndexMessage` and `UnknownIndexMessage` |
| EsClassify.Classify | libs/mimir2/src/adapters/secondary/elasticsearch/internal.rs:166-227 | `From<Exception> for Error`; its contract is stated by `ClassifyWithoutRootCause` and `ClassifyFirstCauseOnly` |
| EsClassify.FromFailure | libs/mimir2/src/adapters/secondary/elasticsearch/internal.rs:293-302 | a failure status: the classified exception, or `ElasticsearchFailureWithoutException` when there is none; used by the acknowledged checks, whose contracts state it |
| EsIndex.ConfigFromText | libs/mimir2/src/adapters/secondary/elasticsearch/internal.rs:146-160 | the conversion succeeds iff the text parses, and then gives the parsed configuration; any failure is `InvalidConfiguration` |
| EsIndex.InvalidConfigurationReport | libs/mimir2/src/adapters/secondary/elasticsearch/internal.rs:146-160 | a text that does not parse is reported with the header "Invalid Elasticsearch Index Configuration", and the report contains both the parser's complaint and the text |
| EsIndex.CheckAcknowledged | libs/mimir2/src/adapters/secondary/elasticsearch/internal.rs:260-303 | Ok iff the status is a success and the body is an object whose `acknowledged` is true; a transport failure, an error status, an unreadable body, a body of the wrong shape and `acknowledged: false` each give their own error |
| EsIndex.ShapeErrors | libs/mimir2/src/adapters/secondary/elasticsearch/internal.rs:269-284 | a non-object body, a missing `acknowledged` and a non-boolean `acknowledged` are reported in that order, each with its own details and the body |
| EsIndex.RefusalKinds | libs/mimir2/src/adapters/secondary/elasticsearch/internal.rs:285-291 | `acknowledged: false` is `NotCreated` exactly for a creation and `NotDeleted` exactly for a deletion; a creation's details are "index creation " plus the name |
| EsIndex.CreateIndexRequest | libs/mimir2/src/adapters/secondary/elasticsearch/internal.rs:236-304 | a request is made iff the spliced body parses as JSON; if it does not, the error is `Json2DeserializationError`; otherwise the response goes through the acknowledged check; success requires both |
| EsIndex.RefreshIndex | libs/mimir2/src/adapters/secondary/elasticsearch/internal.rs:908-935 | Ok iff the status is a success, whatever the body; a transport failure reports "cannot refresh index " plus the name |
| EsIndex.StatusFrom | libs/mimir2/src/adapters/secondary/elasticsearch/internal.rs:1342-1350 | every status string gives `Available` |
| EsIndex.ParseU32 | libs/mimir2/src/adapters/secondary/elasticsearch/internal.rs:1329 | a parsed count is below 2^32 |
| EsIndex.DigitsOfNatToString | libs/mimir2/src/adapters/secondary/elasticsearch/internal.rs:1329 | the decimal rendering of n has only digits, and those digits denote n |
| EsIndex.ParseU32RoundTrip | libs/mimir2/src/adapters/secondary/elasticsearch/internal.rs:1329 | a count below 2^32 written in decimal parses back to itself |
| EsIndex.ParseU32Rejects | libs/mimir2/src/adapters/secondary/elasticsearch/internal.rs:1329 | the empty text, a lone `+` and a negative number do not parse |
| EsIndex.IndexFromRecord | libs/mimir2/src/adapters/secondary/elasticsearch/internal.rs:1311-1340 | a name that does not split gives `IndexConversion`; the conversion succeeds iff the name splits and the count is absent or parses; the index keeps the name, takes doc type and dataset from the split, counts 0 when the count is missing, and is `Available`; a bad count panics with "docs count" |
| EsIndex.IndexFromRecordCount | libs/mimir2/src/adapters/secondary/elasticsearch/internal.rs:1328-1331 | a record whose count is a decimal below 2^32 converts to an index with that count |
| EsIndex.FindIndex | libs/mimir2/src/adapters/secondary/elasticsearch/internal.rs:367-404 | no index exactly when the records decode to the empty list; otherwise the last record decides the result; transport, status, body and decoding errors each give their own error |
| EsIndex.AliasEntry | libs/mimir2/src/adapters/secondary/elasticsearch/internal.rs:811-814 | an entry gives its aliases exactly when it is an object whose `aliases` field is an object |
| EsIndex.NameLessTotal | libs/mimir2/src/adapters/secondary/elasticsearch/internal.rs:808-816 | two different names are ordered one way or the other by `String`'s order |
| EsIndex.LeastName | libs/mimir2/src/adapters/secondary/elasticsearch/internal.rs:808-816 | every non-empty set of names has a least one, the first a `BTreeMap` yields |
| EsIndex.SortedNames | libs/mimir2/src/adapters/secondary/elasticsearch/internal.rs:808-816 | lists a set of names once each, in ascending order, as serde_json's `Map` iterates |
| EsIndex.FirstMalformedUnique | libs/mimir2/src/adapters/secondary/elasticsearch/internal.rs:808-816 | at most one key is the least malformed one, so the panic message is determined |
| EsIndex.FindAliases | libs/mimir2/src/adapters/secondary/elasticsearch/internal.rs:766-831 | the request is for `{base}_*`; a well-formed object gives exactly the index-to-aliases map it describes; otherwise the entries are read in ascending name order and the panic is the message of the least malformed one; transport, status, body and shape errors each give their own error |
| EsIndex.AliasResponse | libs/mimir2/src/adapters/secondary/elasticsearch/internal.rs:785-798 | the backend's answer for `{base}_*` is well formed and describes exactly the indices whose name starts with `base_`, with their aliases |
| EsIndex.EmptyObjects | libs/mimir2/src/adapters/secondary/elasticsearch/internal.rs:789-791 | the object has exactly the given aliases as keys |
| EsIndex.GetPreviousIndices | libs/mimir2/src/adapters/secondary/elasticsearch/internal.rs:897-906 | the result lists the names of the indices matching `{root_doctype_dataset}_*` other than the index's own name, each once and in ascending name order; for a backend holding a set of indices it lists exactly those whose name starts with `base_`, minus the own name; a malformed entry panics as in `find_aliases` |
| EsInsert.InsertStats.constructor | libs/mimir2/src/adapters/secondary/elasticsearch/internal.rs:1364-1369 | the shared counters start at zero |
| EsInsert.Chunks | libs/mimir2/src/adapters/secondary/elasticsearch/internal.rs:493-494 | every chunk holds between 1 and `CHUNK_SIZE` (10) documents |
| EsInsert.ChunksPartition | libs/mimir2/src/adapters/secondary/elasticsearch/internal.rs:493-494 | the chunks, concatenated, are the documents in their order, and there are ceil(N / 10) of them |
| EsInsert.BulkOps | libs/mimir2/src/adapters/secondary/elasticsearch/internal.rs:530-534 | one index operation per document, in order, carrying the document's id and JSON value |
| EsInsert.BuildOps | libs/mimir2/src/adapters/secondary/elasticsearch/internal.rs:530-534 | the loop that pushes the operations builds one index operation per document, in order, with its id and value |
| EsInsert.ItemResultMeaning | libs/mimir2/src/adapters/secondary/elasticsearch/internal.rs:569-595 | an item is read iff it has the shape `{"index": {"result": <string>}}`, and it then gives that string; otherwise the error is `JsonDeserializationInvalid` carrying the item |
| EsInsert.FirstNotCreated | libs/mimir2/src/adapters/secondary/elasticsearch/internal.rs:614 | the position of the first item that is not `created`: every item before it is `created`, and the item there is not |
| EsInsert.ScanCounts | libs/mimir2/src/adapters/secondary/elasticsearch/internal.rs:567-619 | the scan counts as created exactly the `created` items before the first other one; it counts that item as updated iff its result is `updated`; it succeeds iff there is no such item, and otherwise reports that item's own error |
| EsInsert.ScanIgnoresRest | libs/mimir2/src/adapters/secondary/elasticsearch/internal.rs:614-619 | items after the first one that is not `created` change neither the counters nor the verdict |
| EsInsert.ChunkEffect | libs/mimir2/src/adapters/secondary/elasticsearch/internal.rs:536-631 | a chunk adds to the counters only when its answer is a readable success; it panics exactly when the request could not be sent |
| EsInsert.InsertChunk | libs/mimir2/src/adapters/secondary/elasticsearch/internal.rs:519-632 | the shared counters grow by what the chunk's answer reports, `error` stays unchanged, and the result is the chunk's outcome |
| EsInsert.ScanItems | libs/mimir2/src/adapters/secondary/elasticsearch/internal.rs:567-619 | the loop over the items adds to `created` and `updated` what the scan specification counts, leaves `error` alone and returns the scan's verdict |
| EsInsert.Reports | libs/mimir2/src/adapters/secondary/elasticsearch/internal.rs:493-505 | the k-th report is the effect of the k-th chunk's bulk request |
| EsInsert.PanicFrom | libs/mimir2/src/adapters/secondary/elasticsearch/internal.rs:542 | no panic is reported iff no chunk from k on panics |
| EsInsert.CountsUpTo | libs/mimir2/src/adapters/secondary/elasticsearch/internal.rs:599-604 | the summed counters never count an error |
| EsInsert.PanicAt | libs/mimir2/src/adapters/secondary/elasticsearch/internal.rs:542 | the first chunk that panics gives the ingestion's panic message |
| EsInsert.InsertDocuments | libs/mimir2/src/adapters/secondary/elasticsearch/internal.rs:482-516 | the ingestion's result is the specification `Ingestion`: the first panic, or else every chunk's counters summed, with chunk errors dropped |
| EsInsert.InsertChunks | libs/mimir2/src/adapters/secondary/elasticsearch/internal.rs:493-515 | the loop over the chunks returns the reports' total |
| EsInsert.IngestionOutcomes | libs/mimir2/src/adapters/secondary/elasticsearch/internal.rs:493-515 | an ingestion never fails with an error and never counts one; it panics exactly when some chunk's bulk request could not be sent |
| EsInsert.ScanAllCreated | libs/mimir2/src/adapters/secondary/elasticsearch/internal.rs:597-602 | a run of `created` items is counted in full and succeeds |
| EsInsert.FlattenSnoc | libs/mimir2/src/adapters/secondary/elasticsearch/internal.rs:493-494 | appending a chunk appends its documents |
| EsInsert.FreshChunk | libs/mimir2/src/adapters/secondary/elasticsearch/internal.rs:519-619 | against a backend to which every document is new, a chunk counts all its documents as created |
| EsInsert.AllCreatedCount | libs/mimir2/src/adapters/secondary/elasticsearch/internal.rs:493-515 | chunks that each count all their documents add up to the number of documents |
| EsInsert.FreshReports | libs/mimir2/src/adapters/secondary/elasticsearch/internal.rs:493-515 | against such a backend, every chunk's report counts all its documents and does not panic |
| EsInsert.FreshTotal | libs/mimir2/src/adapters/secondary/elasticsearch/internal.rs:493-515 | against such a backend, the total counts every document as created |
| EsInsert.FreshDocumentsAllCreated | libs/mimir2/src/adapters/secondary/elasticsearch/mod.rs:184-247 | ingesting N new documents counts N created, none updated, no error (the adapter's test expects 6 for 6) |
| EsInsert.CountsMayFallShort | libs/mimir2/src/adapters/secondary/elasticsearch/internal.rs:597-619 | three documents answered `created`, `noop`, `created` count one created document, so `created + updated + error` is below the number of documents |
| EsInsert.ItemResult | libs/mimir2/src/adapters/secondary/elasticsearch/internal.rs:569-595 | reading one bulk item; its contract is stated by `ItemResultMeaning` |
| EsInsert.ScanFrom | libs/mimir2/src/adapters/secondary/elasticsearch/internal.rs:567-619 | the scan of the bulk items; its contract is stated by `ScanCounts`, `ScanIgnoresRest` and `ScanAllCreated` |
| EsInsert.Ingestion | libs/mimir2/src/adapters/secondary/elasticsearch/internal.rs:482-516 | the whole ingestion; its contract is stated by `IngestionOutcomes`, `FreshDocumentsAllCreated` and `CountsMayFallShort`, and `InsertDocuments` is proved equal to it |
| EsScan.ReadPageMeaning | libs/mimir2/src/adapters/secondary/elasticsearch/internal.rs:987-1042 | a page read either yields or panics; an empty page ends the listing with the answer's `pit_id`; a non-empty page emits the decoded `_source` of every hit, and its token holds the answer's `pit_id` and the last hit's `sort[0]`/`sort[1]` |
| EsScan.StepRequests | libs/mimir2/src/adapters/secondary/elasticsearch/internal.rs:951-1127 | `Start` opens a handle on the index and then searches from the beginning with the id it got; `Next` searches after its token's key with its token's handle; `End` closes its handle and never yields |
| EsScan.RunYield | libs/mimir2/src/adapters/secondary/elasticsearch/internal.rs:947-1130 | a run past a yielding step emits that step's documents before those of the rest of the run |
| EsScan.PrependYield | libs/mimir2/src/adapters/secondary/elasticsearch/internal.rs:947-1130 | collecting a yielding step's page moves its documents and requests to the front of the listing |
| EsScan.PrependHalt | libs/mimir2/src/adapters/secondary/elasticsearch/internal.rs:1112-1125 | a step that does not yield ends the run: a stop finishes it, a failed unwrap panics |
| EsScan.Unfold | libs/mimir2/src/adapters/secondary/elasticsearch/internal.rs:947-1130 | pulling the stream for at most `steps` steps gives the documents, requests and ending of the run from `Start` |
| EsScan.ListDocuments | libs/mimir2/src/adapters/secondary/elasticsearch/internal.rs:939-1133 | the listing is the run of the `list_documents` machine from `Start` |
| EsScan.FirstAfter | libs/mimir2/src/adapters/secondary/elasticsearch/internal.rs:1050-1053 | the position the backend resumes from lies between i and the end |
| EsScan.SourcesSplit | libs/mimir2/src/adapters/secondary/elasticsearch/internal.rs:1026-1038 | the sources of adjacent slices concatenate |
| EsScan.PageStart | libs/mimir2/src/adapters/secondary/elasticsearch/internal.rs:1050-1053 | a page starts within the documents |
| EsScan.FirstAfterLast | libs/mimir2/src/adapters/secondary/elasticsearch/internal.rs:1050-1053 | in sorted documents, the first document past the key of `docs[j-1]` is `docs[j]` |
| EsScan.SortKeyOfHit | libs/mimir2/src/adapters/secondary/elasticsearch/internal.rs:1008-1017 | the sort key read from a hit is the document's `(indexed_at, tiebreaker)` |
| EsScan.DecodeSources | libs/mimir2/src/adapters/secondary/elasticsearch/internal.rs:1026-1038 | decoding the hits gives back their sources |
| EsScan.ReadFullPage | libs/mimir2/src/adapters/secondary/elasticsearch/internal.rs:1025-1109 | a non-empty page emits its documents' sources, and its token holds the handle and the key of its last document |
| EsScan.ReadEmptyPage | libs/mimir2/src/adapters/secondary/elasticsearch/internal.rs:1003-1079 | an empty page emits nothing and goes to `End` with the handle |
| EsScan.SearchAfter | libs/mimir2/src/adapters/secondary/elasticsearch/internal.rs:1044-1069 | a search resuming after `docs[j-1]` gets the next page of at most `size` documents |
| EsScan.StepAfter | libs/mimir2/src/adapters/secondary/elasticsearch/internal.rs:1044-1111 | a step resuming after `docs[j-1]` yields the next page, or goes to the end once every document is listed |
| EsScan.PitServerPages | libs/mimir2/src/adapters/secondary/elasticsearch/internal.rs:1044-1111 | the point-in-time backend answers every resumed search as paging relies on |
| EsScan.StepStart | libs/mimir2/src/adapters/secondary/elasticsearch/internal.rs:952-1043 | the first step opens the handle, searches from the start and emits the first page |
| EsScan.RunFrom | libs/mimir2/src/adapters/secondary/elasticsearch/internal.rs:1044-1125 | from a resumed position, the run emits every remaining document in order and ends by closing the handle |
| EsScan.EndsWith | libs/mimir2/src/adapters/secondary/elasticsearch/internal.rs:1112-1125 | the last request of a concatenation is the last of its right part |
| EsScan.ListingIsComplete | libs/mimir2/src/adapters/secondary/elasticsearch/internal.rs:939-1133 | against a point-in-time backend over sorted documents, the listing emits every document exactly once in key order, opens its handle first and closes it last |
| EsScan.ListingFrom | libs/mimir2/src/adapters/secondary/elasticsearch/internal.rs:939-1133 | any step function that opens with the first page and then pages as the backend does lists every document in order and closes the handle |
| EsScan.ReadPage | libs/mimir2/src/adapters/secondary/elasticsearch/internal.rs:951-1127 | reading a search answer; its contract is stated by `ReadPageMeaning`, `ReadFullPage` and `ReadEmptyPage` |
| EsScan.Step | libs/mimir2/src/adapters/secondary/elasticsearch/internal.rs:951-1127 | one step of the `list_documents` machine; its contract is stated by `StepRequests`, `StepStart` and `StepAfter` |
| EsScan.Run | libs/mimir2/src/adapters/secondary/elasticsearch/internal.rs:947-1130 | the unfolding of the machine; its contract is stated by `RunYield`, `RunFrom` and `ListingIsComplete`, and `Unfold` is proved equal to it |
| EsStorage.ParseFailureFirst | libs/mimir2/src/adapters/secondary/elasticsearch/storage.rs:22-26 | a configuration that does not parse is a container creation error wrapping `InvalidConfiguration`, and no request is made |
| EsStorage.CreatedIsFound | libs/mimir2/src/adapters/secondary/elasticsearch/storage.rs:27-36 | creation succeeds iff the configuration and the body parse, the backend acknowledges, and the lookup that follows finds an index; the result is that index, and the creation request comes before the lookup |
| EsStorage.CreatedButNotFound | libs/mimir2/src/adapters/secondary/elasticsearch/storage.rs:30-34 | an acknowledged creation whose lookup finds nothing is a creation error wrapping `ElasticsearchUnknownIndex` of the configured name |
| EsStorage.FailuresAreCreationErrors | libs/mimir2/src/adapters/secondary/elasticsearch/storage.rs:22-39 | every failure is a `ContainerCreationError`, and its message starts with "Container Creation Error" |
| EsStorage.CreationRefused | libs/mimir2/src/adapters/secondary/elasticsearch/storage.rs:28-39 | a creation the backend refuses stops there: the classified refusal is the creation error, and no lookup is made |
| EsStorage.DuplicateDisplay | libs/mimir2/src/adapters/secondary/elasticsearch/mod.rs:128-131 | the message of a duplicate index wrapped as a creation error contains "Elasticsearch Duplicate Index" |
| EsStorage.DuplicateCreation | libs/mimir2/src/adapters/secondary/elasticsearch/mod.rs:94-132 | creating an index a second time ends in a creation error for a duplicate of that name, whose message contains "Elasticsearch Duplicate Index"; no lookup is made |
| EsStorage.Effect | libs/mimir2/src/adapters/secondary/elasticsearch/storage.rs:81-102 | a refresh leaves the alias table alone; an alias request changes only its own alias |
| EsStorage.RunCalls | libs/mimir2/src/adapters/secondary/elasticsearch/storage.rs:66-107 | the requests made are a prefix of the plan; the run succeeds iff every request is accepted, and then it made them all; otherwise the last request made is the refused one, and its error is the result |
| EsStorage.RefreshFirst | libs/mimir2/src/adapters/secondary/elasticsearch/storage.rs:66-76 | the refresh is always the first request; nothing follows a failed refresh or a failed lookup of previous indices; every failure is an `IndexPublicationError` |
| EsStorage.PublishedRequests | libs/mimir2/src/adapters/secondary/elasticsearch/storage.rs:66-109 | a successful publication made the refresh, then the dataset alias swap, then the document-type alias swap for a public index only |
| EsStorage.RemoveOnlyPrevious | libs/mimir2/src/adapters/secondary/elasticsearch/storage.rs:80-106 | an alias is removed only when there are previous indices, it is removed from exactly those, and it is then immediately added to the new index |
| EsStorage.SwapEffect | libs/mimir2/src/adapters/secondary/elasticsearch/storage.rs:80-91 | after a swap the alias points to the new index plus whatever it pointed to that is not a previous index; the other aliases are untouched |
| EsStorage.PublishedAliases | libs/mimir2/src/adapters/secondary/elasticsearch/storage.rs:78-107 | after a successful publication the dataset alias points to the new index plus the non-previous indices it had; the document-type alias is moved the same way only when the index is public; no other alias changes |
| EsStorage.PublishIdempotent | libs/mimir2/src/adapters/secondary/elasticsearch/storage.rs:60-110 | publishing the same index again with the same previous indices leaves the alias table as it is |
| EsStorage.CreateContainer | libs/mimir2/src/adapters/secondary/elasticsearch/storage.rs:18-40 | `create_container`; its contract is stated by `ParseFailureFirst`, `CreatedIsFound`, `CreatedButNotFound`, `FailuresAreCreationErrors`, `CreationRefused` and `DuplicateCreation` |
| EsStorage.Swap | libs/mimir2/src/adapters/secondary/elasticsearch/storage.rs:80-91 | one alias swap; its contract is stated by `RemoveOnlyPrevious` and `SwapEffect` |
| EsStorage.Publish | libs/mimir2/src/adapters/secondary/elasticsearch/storage.rs:60-110 | the publication sketch; its contract is stated by `RefreshFirst`, `PublishedRequests`, `PublishedAliases` and `PublishIdempotent` |
| OsmStore.KindCode | src/osm_reader/osm_store.rs:62-82 | kinds are encoded in the range 0..2 (Node 0, Way 1, Relation 2) |
| OsmStore.KindCodeInjective | src/osm_reader/osm_store.rs:62-82 | two kinds have the same code exactly when they are the same kind, so the `kind` column tells objects apart |
| OsmStore.Lookup | src/osm_reader/osm_store.rs:125-148 | an object is found iff the id is buffered or a row exists under the id's number and kind; a buffered object shadows the table row |
| OsmStore.FlushedConsistent | src/osm_reader/osm_store.rs:201-237 | after a flush, every row's kind column is still the kind of the object stored in it |
| OsmStore.FlushKeepsLookups | src/osm_reader/osm_store.rs:125-237 | when the buffered ids have no rows yet, looking any id up in the flushed table gives what buffer-then-table gave before the flush |
| OsmStore.SecondCopyLostAtFlush | src/osm_reader/osm_store.rs:201-246 | insert-or-ignore: an id re-inserted after its first copy was flushed is seen while buffered, and after the next flush the old row wins |
| OsmStore.FlushStep | src/osm_reader/osm_store.rs:214-230 | writing one more drained entry with insert-or-ignore keeps the flush relation: old rows are kept and an occupied row is not overwritten |
| OsmStore.BufferBound | src/osm_reader/osm_store.rs:241-246 | the buffer limit is `max(db_buffer_size, 1)`: at least one and at least the configured size |
| OsmStore.DB.constructor | src/osm_reader/osm_store.rs:102-123 | `DB::new` starts with an empty buffer and an empty table, and keeps the configured buffer size |
| OsmStore.DB.GetFromId | src/osm_reader/osm_store.rs:125-148 | `get_from_id` finds an object exactly when `contains_key` holds |
| OsmStore.DB.FlushBuffer | src/osm_reader/osm_store.rs:201-237 | afterwards the buffer is empty and the table is the old table with every drained entry written by insert-or-ignore; an empty buffer leaves the table as it was |
| OsmStore.DB.Insert | src/osm_reader/osm_store.rs:241-246 | flushes first when the buffer holds `db_buffer_size` or more, otherwise changes only the buffer; afterwards the buffer holds at most `max(db_buffer_size, 1)` entries and the id is found with the inserted object |
| OsmStore.DB.ForEach | src/osm_reader/osm_store.rs:151-172 | visits every buffered object once, then every table row once, in that order |
| OsmStore.DB.ForEachFilter | src/osm_reader/osm_store.rs:174-199 | visits exactly the buffered objects of the kind, then exactly the rows of the kind, each once, and every visited object has that kind |
| OsmStore.Drain | src/osm_reader/osm_store.rs:212-230 | draining a buffer into a table with insert-or-ignore, in whatever order the map yields, satisfies the flush relation |
| OsmStore.Gather | src/osm_reader/osm_store.rs:152-178 | the objects visited are the map's values for the listed keys, in that order |
| OsmStore.IdsOfKind | src/osm_reader/osm_store.rs:175-177 | lists, without repeats, exactly the buffered ids whose object has the kind |
| OsmStore.RowsOfKind | src/osm_reader/osm_store.rs:179-189 | lists, without repeats, exactly the rows whose kind column is the filter's code (`WHERE kind=?1`) |
| OsmStore.KeysOf | src/osm_reader/osm_store.rs:151-172 | lists every key of the map exactly once |
| OsmStore.ObjWrapper.constructor | src/osm_reader/osm_store.rs:285-296 | a `DB` with an empty buffer and table when a database file is given, an empty map otherwise |
| OsmStore.ObjWrapper.Get | src/osm_reader/osm_store.rs:323-330 | the map variant finds exactly its own entries; the DB variant answers as `get_from_id` |
| OsmStore.ObjWrapper.ContainsKey | src/osm_reader/osm_store.rs:342-347 | `contains_key` holds exactly when `get` finds an object |
| OsmStore.ObjWrapper.Insert | src/osm_reader/osm_store.rs:332-341 | the map variant overwrites the entry; the DB variant leaves the map alone and does what `DB::insert` does: it flushes the buffer into the table when it holds `db_buffer_size` or more, otherwise it only adds to the buffer; either way the id is then found with the inserted object |
| OsmStore.ObjWrapper.ForEach | src/osm_reader/osm_store.rs:298-309 | the map variant visits each of its objects once, in ascending `OsmId` order as a `BTreeMap` yields them; the DB variant visits every buffered object once, then every table row once |
| OsmStore.ObjWrapper.ForEachFilter | src/osm_reader/osm_store.rs:311-320 | every visited object has the filtered kind; the map variant visits exactly its own objects of that kind, each once, in ascending `OsmId` order; the DB variant visits exactly the buffered objects of the kind, then exactly the rows of the kind, each once |
| OsmStore.SortedKeys | src/osm_reader/osm_store.rs:279-305 | lists every key of the `BTreeMap` exactly once, in strictly ascending `OsmId` order |
| OsmStore.KindFilter | src/osm_reader/osm_store.rs:314-316 | keeps, in their ascending order, exactly the ids whose object has the filtered kind |
| OsmStore.HasLeast | src/osm_reader/osm_store.rs:279-305 | a non-empty set of ids has a least one in the `OsmId` order, which the sorted iteration takes next |
| OsmStore.IdLessTotal | src/osm_reader/osm_store.rs:279-305 | the `OsmId` order is total: two different ids are ordered one way or the other |
| OsmStore.EnumerationSize | src/osm_reader/osm_store.rs:151-172 | a list of distinct keys covering a set is as long as the set, so a full visit visits each stored object once |
| BragiParams.CheckBound | libs/bragi/src/params.rs:176-195 | a value passes iff it lies within [min, max], inclusive at both ends; otherwise the error is `WrongValue` with the path and the caller's message |
| BragiParams.AsWrittenRanges | libs/bragi/src/params.rs:36-84 | with the declared constants, `lon` passes iff it is in [-90, 90] and `lat` iff it is in [-180, 180]; a refused `lon` reports "lon is not a valid longitude" |
| BragiParams.SwappedBoundsWitness | libs/bragi/src/params.rs:36-84 | the longitude 121.47 is refused and the latitude 100 accepted by the declared constants; the intended bounds do the opposite |
| BragiParams.IntendedRanges | libs/bragi/src/params.rs:36-84 | with the intended WGS84 bounds, a longitude passes iff it is in [-180, 180] and a latitude iff it is in [-90, 90] |
| BragiParams.CheckPairing | libs/bragi/src/params.rs:85-105 | the parameter object passes iff it has both `lon` and `lat` or neither; exactly one of them gives `WrongValue` with the pairing message |
| BragiParams.TypeFromStr | libs/bragi/src/params.rs:314-327 | parsing fails iff the string is none of the six type names, and the error is "<s> is not a valid type"; "city" and "zone" both give `Zone` |
| BragiParams.TypeNameRoundTrip | libs/bragi/src/params.rs:305-327 | every place type has an accepted name that parses back to it, and different types have different names |
| BragiParams.CheckType | libs/bragi/src/params.rs:197-208 | a list passes iff every element is a type name |
| BragiParams.CheckTypeFirstBad | libs/bragi/src/params.rs:197-208 | when element k is the first one that is not a type name, the error is `WrongValue` naming element k |
| BragiParams.UnvalidType | tests/bragi_filter_types_test.rs:165-176 | the filter `type=unvalid` is refused with the detail "unvalid is not a valid type" |
| BragiParams.CheckZoneType | libs/bragi/src/params.rs:210-230 | a zone type passes iff it is one of the seven `ZONE_TYPES`; the error repeats the value and lists the zone types joined by ", " |
| BragiParams.ZoneTypesListed | libs/bragi/src/params.rs:216-220 | the list in that error contains every zone type |
| BragiParams.CheckPoint | libs/bragi/src/params.rs:265-299 | a point passes iff it is a pair of floats within the bounds; a non-array or non-float pair gives `WrongType`, a wrong length or an out-of-range coordinate gives `WrongValue` |
| BragiParams.CheckPoints | libs/bragi/src/params.rs:265-300 | a ring's points pass iff every one of them is a good point |
| BragiParams.CheckRing | libs/bragi/src/params.rs:252-300 | a ring passes iff it is a non-empty array of good points; a non-array is `WrongType` and an empty array is `WrongValue` |
| BragiParams.CheckRings | libs/bragi/src/params.rs:251-301 | the rings pass iff each one is a non-empty array of good points |
| BragiParams.CheckCoordinates | libs/bragi/src/params.rs:232-303 | the value passes iff it is a non-empty array of non-empty arrays of good points; a non-array is `WrongType` and an empty array is `WrongValue`; any other refusal is that of the first bad ring, as `CheckCoordinatesFirstBad` states |
| BragiParams.CheckRingsErrorShape | libs/bragi/src/params.rs:251-301 | every refusal while checking rings is `WrongType` or `WrongValue` carrying the path and the caller's message |
| BragiParams.CheckPointsErrorShape | libs/bragi/src/params.rs:265-300 | every refusal while checking points is `WrongType` or `WrongValue` carrying the path and the caller's message |
| BragiParams.CheckPointsFirstBad | libs/bragi/src/params.rs:265-300 | when point k is the first bad one, the ring check answers exactly point k's own error, as the loop returns there |
| BragiParams.CheckRingFirstBadPoint | libs/bragi/src/params.rs:252-300 | a ring whose first bad point is k is refused with that point's error |
| BragiParams.CheckRingsFirstBad | libs/bragi/src/params.rs:251-301 | when ring k is the first bad one, the rings check answers exactly ring k's error |
| BragiParams.CheckCoordinatesFirstBad | libs/bragi/src/params.rs:232-303 | past the two outer checks, `check_coordinates` returns the first bad ring's error |
| BragiParams.ShortPointBeforeWrongType | libs/bragi/src/params.rs:265-285 | `[[[1.0], 5]]` is refused as `WrongValue`, the first point's wrong length, and not as the later point's `WrongType` |
| BragiParams.IntegerCoordinatesRefused | libs/bragi/src/params.rs:280-285 | `[[[2, 48]]]` is refused as the wrong type because integers are not `f64`, while `[[[2.0, 48.0]]]` is accepted |
| BragiParams.GetZoneType | libs/bragi/src/params.rs:164-174 | the result is Some exactly when `zone_type` is present, is a string and is not empty, and it is then that string |
| BragiParams.GetParamArray | libs/bragi/src/params.rs:156-162 | an absent or non-array parameter gives the empty list; an array gives its strings in order, or the `unwrap` panic if some element is not a string |
| BragiParams.Strings | libs/bragi/src/params.rs:160 | the strings of the elements, in order and of the same length, or the `unwrap` panic at the first element that is not a string |
| BragiParams.CheckLon | libs/bragi/src/params.rs:72-78 | the `lon` validator; its contract is stated by `AsWrittenRanges` and `IntendedRanges` |
| BragiParams.CheckLat | libs/bragi/src/params.rs:79-84 | the `lat` validator; its contract is stated by `AsWrittenRanges` and `IntendedRanges` |
| Osm2MimirSettings.ToI64 | src/settings/osm2mimir.rs:278-337 | the conversion to `i64` succeeds exactly when the count is at most 2^63-1, keeps the value, and otherwise fails with "Could not convert <what> to integer: " and the conversion error |
| Osm2MimirSettings.U32Fits | src/settings/osm2mimir.rs:273-304 | the `u32` city level and levels always convert, so those error branches cannot be taken |
| Osm2MimirSettings.UsizeMayNotFit | src/settings/osm2mimir.rs:325-337 | the largest `usize` does not convert, so the count branches can fail |
| Osm2MimirSettings.Position | src/settings/osm2mimir.rs:260-455 | each argument has one place in the order `collect` visits the arguments |
| Osm2MimirSettings.OrderPositions | src/settings/osm2mimir.rs:260-455 | each place of that order holds exactly one argument |
| Osm2MimirSettings.KeyLength | src/settings/osm2mimir.rs:265-441 | the length of every configuration key `collect` writes |
| Osm2MimirSettings.KeyInjective | src/settings/osm2mimir.rs:265-441 | different arguments are written under different keys |
| Osm2MimirSettings.LevelValues | src/settings/osm2mimir.rs:287-304 | the admin levels become a list of the same length holding the same numbers |
| Osm2MimirSettings.CollectLevels | src/settings/osm2mimir.rs:292-301 | the fold over the levels pushes each converted level in order, giving that list |
| Osm2MimirSettings.StoppedStays | src/settings/osm2mimir.rs:260-455 | once a conversion error has returned, later arguments change nothing: the result stays that error |
| Osm2MimirSettings.InsertOk | src/settings/osm2mimir.rs:260-455 | the insertions succeed exactly when no argument stops them |
| Osm2MimirSettings.InsertFirstError | src/settings/osm2mimir.rs:260-455 | the error returned is that of the first argument that stops the insertions |
| Osm2MimirSettings.InsertContents | src/settings/osm2mimir.rs:260-455 | with distinct keys, the map on success holds exactly the key of each contributing argument, with that argument's value |
| Osm2MimirSettings.Contributions | src/settings/osm2mimir.rs:260-455 | one entry per argument, in the order `collect` visits them |
| Osm2MimirSettings.ContributionAt | src/settings/osm2mimir.rs:263-453 | each argument's entry sits at its place, under its key, with what the argument gives (nothing, a value, or a conversion error) |
| Osm2MimirSettings.ContributionKeysDistinct | src/settings/osm2mimir.rs:263-453 | no two entries share a key, so no insertion overwrites another |
| Osm2MimirSettings.StopsIffTooLarge | src/settings/osm2mimir.rs:325-453 | an argument stops `collect` exactly when it is a count that is given and is larger than 2^63-1 |
| Osm2MimirSettings.CollectedMeaning | src/settings/osm2mimir.rs:260-455 | `collect` succeeds exactly when every count given fits an `i64`; then it holds a key for each argument given, with its value, and no other key |
| Osm2MimirSettings.CollectedError | src/settings/osm2mimir.rs:325-453 | when a count is too large, the error is the one of the first such count in visiting order |
| Osm2MimirSettings.Collect | src/settings/osm2mimir.rs:260-455 | `Args::collect` returns what the left-fold specification gives: keys in order, stopping at the first error |
| Osm2MimirSettings.CollectAdmin | src/settings/osm2mimir.rs:268-304 | the admin arguments add their keys to the map |
| Osm2MimirSettings.CollectWayPoi | src/settings/osm2mimir.rs:306-314 | the street and POI import flags add their keys to the map |
| Osm2MimirSettings.CollectSearchStreets | src/settings/osm2mimir.rs:316-354 | the connection string and the street index's shards and replicas: keys added, or the first conversion error |
| Osm2MimirSettings.CollectSearchPois | src/settings/osm2mimir.rs:355-384 | the POI index's shards and replicas: keys added, or the first conversion error |
| Osm2MimirSettings.CollectSearchAdmins | src/settings/osm2mimir.rs:385-428 | the admin index's shards and replicas and the insert thread count: keys added, or the first conversion error |
| Osm2MimirSettings.CollectDatabase | src/settings/osm2mimir.rs:430-453 | the database file and buffer size: keys added, or the conversion error of the buffer size |
| Osm2MimirSettings.Merge | src/settings/osm2mimir.rs:87-164 | a merged configuration has the keys of both layers; the new layer's values win and the other keys keep the old layer's values |
| Osm2MimirSettings.Push | src/settings/osm2mimir.rs:80-116 | `PathBuf::push`: the pushed name is always the tail of the result; an absolute name replaces the directory; a relative one is appended after the directory |
| Osm2MimirSettings.PushTrailingSlash | src/settings/osm2mimir.rs:80-116 | a trailing `/` on the configuration directory gives the same path, so `push`, `pop`, `push` reaches the same specific file |
| Osm2MimirSettings.PushOntoEmpty | src/settings/osm2mimir.rs:80-116 | pushing onto an empty directory gives the name alone, with no leading `/` |
| Osm2MimirSettings.PushExamples | src/settings/osm2mimir.rs:80-116 | `config/` and `config` both give `config/osm2mimir-default`, and `--settings /etc/acme` names `/etc/acme` |
| Osm2MimirSettings.WithName | src/settings/osm2mimir.rs:87-121 | a named file that is not found is an error naming the path; otherwise the result is what the file found reads as |
| Osm2MimirSettings.LoadDefault | src/settings/osm2mimir.rs:76-160 | the default layer: the directory's default file when it is present, otherwise the compiled-in default, each failing with its own message |
| Osm2MimirSettings.LoadFiles | src/settings/osm2mimir.rs:71-160 | a settings name with no configuration directory gives "Could not build program settings"; otherwise the specific file is merged over the default layer, and the first error stops the load |
| Osm2MimirSettings.SettingsNew | src/settings/osm2mimir.rs:71-175 | `Settings::new`: the file layers, then the arguments merged on top, then deserialisation, each error wrapped in its own message |
| Osm2MimirSettings.SettingsNeedDirectory | src/settings/osm2mimir.rs:137-146 | a settings name without a configuration directory always fails with "Could not build program settings" |
| Osm2MimirSettings.LayeredOk | src/settings/osm2mimir.rs:71-166 | the layering succeeds exactly when the files merge and every count given fits an `i64` |
| Osm2MimirSettings.LayerPrecedence | src/settings/osm2mimir.rs:113-166 | every option given on the command line wins; a key that no option sets keeps the specific file's value, or else the default layer's |
| Osm2MimirSettings.DefaultIgnoredAsWritten | src/settings/osm2mimir.rs:80-104 | as written, when no extensionless `<dir>/osm2mimir-default` exists, the default layer is the compiled-in default |
| Osm2MimirSettings.DefaultFileIgnored | src/settings/osm2mimir.rs:80-104 | a directory holding `osm2mimir-default.toml` gets the compiled-in default as written, but that file's contents as intended |
| Osm2MimirSettings.DefaultReadWhenFound | src/settings/osm2mimir.rs:80-104 | as intended, the directory's default file is read whenever one is found for the name (its errors wrapped), and otherwise the compiled-in default is used |
| Osm2MimirSettings.Collected | src/settings/osm2mimir.rs:260-455 | what `collect` gives; its contract is stated by `CollectedMeaning` and `CollectedError`, and `Collect` is proved equal to it |
| Osm2MimirSettings.DefaultLayer | src/settings/osm2mimir.rs:77-160 | the default layer; its contract is stated by `DefaultIgnoredAsWritten`, `DefaultFileIgnored` and `DefaultReadWhenFound`, and `LoadDefault` is proved equal to it |
| Osm2MimirSettings.SpecificLayer | src/settings/osm2mimir.rs:113-135 | the specific settings file; its contract is stated by `LayerPrecedence` |
| Osm2MimirSettings.FileLayers | src/settings/osm2mimir.rs:71-160 | the file layers; its contract is stated by `LayeredOk` and `LayerPrecedence`, and `LoadFiles` is proved equal to it |
| Osm2MimirSettings.Layered | src/settings/osm2mimir.rs:71-166 | the layered configuration; its contract is stated by `LayeredOk` and `LayerPrecedence` |
| Osm2MimirSettings.SettingsOf | src/settings/osm2mimir.rs:71-175 | `Settings::new` as a function; its contract is stated by `SettingsNeedDirectory`, and `SettingsNew` is proved equal to it |

## Left out

- The HTTP client, request building and serde (de)serialisation: each backend answer is a `Response` value, and each decoding step is a function parameter.
- Concurrency: `for_each_concurrent(8)` over the chunks is modelled sequentially, and the `Arc`/`Mutex` `try_unwrap` failure paths of `insert_documents_in_index` are not modelled, because the counters are sums and their order does not matter.
- The regular-expression engine: each pattern of the exception classifier is an explicit scanner, proved to find what a leftmost-first engine reports.
- `response.exception()` and its `.ok().unwrap()`: the exception a failed answer carries is part of the `Response` value.
- `search_documents` and `explain_search`: they are thin request wrappers with no logic beyond the checks already modelled.
- `add_pipeline`: only its acknowledged check is modelled, not its parsing of the pipeline text as JSON.
- `configuration::split_index_name`, `root_doctype_dataset` and `root_doctype`: their source is not part of this model, so they are function parameters.
- `delete_container` and `find_container` in storage.rs are commented out and have no model. The publication procedure, commented out too, is a sketch.
- The unbounded stream of `list_documents`: the model runs the paging machine for at most `steps` steps (`EsScan.Run`), so a backend that never ends the listing shows up as running out of steps.
- The `unwrap` of `serde_json::from_str` on the request bodies of `list_documents`, which are formatted with the raw pit id: a pit id holding a quote or a backslash would make it panic. The model sends well-formed requests for every pit id.
- The logging (`info!`, `warn!`, `error!`) is not modelled.
- EsIndex.FindAliases: each index's aliases are a set, where the source collects a `Vec` in the inner object's key order; `get_previous_indices`, its only caller, uses only the index names.
- EsScan.ReadPage: a panic at a bare `unwrap()` of the listing carries a descriptive label (`MsgTimestamp`, `MsgOpenPit`, …) in place of Rust's unwrap text; only the five `expect` labels are the source's own messages. Even these stand in for bare unwraps in the `Next` state (internal.rs:1071-1105) and at the decoding of `_source` (`serde_json::from_value(...).unwrap()`, internal.rs:1036 and 1104), whose panic texts are Rust's own.
- SQLite, bincode and the removal of the database file in osm_store.rs: the table is a map and serialization is the identity. The failures of the insert, flush and lookup calls, which the source only logs, are not modelled.
- OsmStore.DB.constructor and OsmStore.ObjWrapper.constructor always succeed: `DB::new` returns the failures of `Connection::open` ("failed to open SQLITE connection: …") and of `CREATE TABLE` ("failed to create table: …") as `Err`, and `ObjWrapper::new` passes them on with `?`, but the model has no database that can fail to open.
- The iteration order of the buffer's `HashMap`: the model allows any order, so when two buffered entries go to the same row, which one wins is left open.
- The order of `OsmId` is that of osmpbfreader's derived `Ord` (nodes, then ways, then relations, each by number); osmpbfreader is not part of this model.
- The `FnMut` callbacks of `for_each` and `for_each_filter`: the methods return the sequence of objects they would pass to the callback.
- Floating point: coordinates are reals, so NaN and rounding are not modelled.
- The `Builder`/valico registration calls in params.rs are framework plumbing and are not modelled.
- File reading in `Settings::new`: the file system is abstract. It answers whether a path exists, which file a name without extension resolves to, and what a file reads as.
- The compiled-in default configuration is a parameter (`builtin`), and `try_into` is a parameter (`freeze`).
- Configuration merging of config-rs is a key-by-key override on flat dotted keys. Its deep merge of nested tables is not modelled.
- Paths in `Settings::new` are strings, so the `to_str` failure branches ("Could not read default settings", "Could not read configuration") cannot occur in the model.
- Osm2MimirSettings.SpecificLayer pushes the settings name onto the configuration directory itself, where the source pops the pushed default name off first (src/settings/osm2mimir.rs:113). `PushTrailingSlash` shows the two agree for a directory with or without a trailing `/`. `Path::pop` also normalises repeated separators and `.` components, and the model does not: a directory such as `config//` gives the text `config//name`, which names the same file.
- The `db-storage` feature is taken as enabled, so `collect` always looks at the two database arguments. `usize` is 64 bits wide.
- The `expect("valid utf-8 filename")` on the database file name: the file name is a string.
- The `u32` conversions of `city_level` and `level` cannot fail (`Osm2MimirSettings.U32Fits`), so their error messages are not modelled.
- ntfs2mimir, the docker test harness and the integration tests against a live backend are outside this model.

## Findings

| source | as written | input that shows it | evidently intended | confidence | as-written member | corrected member |
|---|---|---|---|---|---|---|
| libs/bragi/src/params.rs:36-84 | the longitude check uses the bounds ±90 and the latitude check ±180; the constants are named with lat and lon swapped | `lon=121.47` (Shanghai) is refused, and `lat=100` is accepted | longitudes in [-180, 180] and latitudes in [-90, 90] | high, not executed | BragiParams.SwappedBoundsWitness | BragiParams.IntendedRanges |
| src/settings/osm2mimir.rs:80-104 | the default file is taken only when `dir.exists()` holds for the path `<config_dir>/osm2mimir-default`, which has no extension, while `File::with_name` reads `osm2mimir-default.toml` | a configuration directory holding only `osm2mimir-default.toml` with key `a` set: the compiled-in default is used and `a` is missing | read the default file whenever `File::with_name` finds one for the name | medium, not executed | Osm2MimirSettings.DefaultFileIgnored | Osm2MimirSettings.DefaultReadWhenFound |
