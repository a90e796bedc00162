/**
 * Bulk ingestion (`insert_documents_in_index`, `insert_chunk_in_index`).
 *
 * Documents are grouped into chunks of `ChunkSize`; each chunk is sent as
 * one bulk request and the items of the answer are scanned in order. Each
 * `created` item adds one to `created`; the first item that is not
 * `created` ends the scan and is the chunk's error (an `updated` item first
 * adds one to `updated`). Later items are never looked at, `error` is never
 * incremented, and a chunk's error is discarded by the driver.
 *
 * The chunks are processed one after the other here; the bulk endpoint is
 * an oracle `bulk(k, ops)` giving the answer to the k-th bulk request.
 */
module EsInsert {
  import opened Common
  import opened EsModel
  import opened EsClassify

  /** `CHUNK_SIZE` */
  const ChunkSize: nat := 10

  // The messages and keys of the bulk answer, named once.
  const ExpectedObject: string := "expected JSON object"
  const ExpectedItemsArray: string := "expected 'items' to be an array"
  const ExpectedItems: string := "expected 'items'"
  const ExpectedIndexObject: string := "expected JSON 'index' to be an object"
  const ExpectedIndex: string := "expected 'index'"
  const ExpectedResultString: string := "expected 'result' to be a string"
  const ExpectedResult: string := "expected 'result'"
  const SendBulk: string := "send bulk"
  const WarnItem: string := "WARN: item "
  const NotCreatedItem: string := "not created: "
  const WasUpdated: string := " was updated"
  const Created: string := "created"
  const Updated: string := "updated"
  const NoopResult: string := "noop"
  const ItemsKey: string := "items"
  const IndexKey: string := "index"
  const ResultKey: string := "result"

  /** A document to index: its identifier and its JSON form. */
  datatype Document = Document(id: string, value: Json)

  /** `BulkOperation::index(value).id(id)` */
  datatype BulkOperation = IndexOp(id: string, value: Json)

  /** The three counters, as plain values. */
  datatype Counts = Counts(created: nat, updated: nat, error: nat)

  /** `InsertStats`, shared by every chunk of one ingestion. */
  class InsertStats {
    var created: nat
    var updated: nat
    var error: nat

    /** `InsertStats::default()` */
    constructor ()
      ensures created == 0 && updated == 0 && error == 0
    {
      created := 0;
      updated := 0;
      error := 0;
    }
  }

  // ---------------------------------------------------------------------
  // Chunks

  /** `documents.chunks(ChunkSize)`: consecutive groups of `ChunkSize`
      documents, the last one possibly shorter. */
  function Chunks(docs: seq<Document>): (cs: seq<seq<Document>>)
    ensures forall k :: 0 <= k < |cs| ==> 0 < |cs[k]| <= ChunkSize
    decreases |docs|
  {
    if docs == [] then []
    else if |docs| <= ChunkSize then [docs]
    else [docs[..ChunkSize]] + Chunks(docs[ChunkSize..])
  }

  function Flatten(cs: seq<seq<Document>>): seq<Document>
  {
    if cs == [] then [] else cs[0] + Flatten(cs[1..])
  }

  /** Chunking loses and reorders nothing. */
  lemma {:induction false} ChunksPartition(docs: seq<Document>)
    ensures Flatten(Chunks(docs)) == docs
    ensures |Chunks(docs)| == (|docs| + ChunkSize - 1) / ChunkSize
    decreases |docs|
  {
    if docs == [] {
    } else if |docs| <= ChunkSize {
      assert Flatten(Chunks(docs)) == docs + Flatten([]);
    } else {
      var cs := Chunks(docs);
      ChunksPartition(docs[ChunkSize..]);
      assert cs[1..] == Chunks(docs[ChunkSize..]);
      assert docs == docs[..ChunkSize] + docs[ChunkSize..];
    }
  }

  // ---------------------------------------------------------------------
  // One chunk

  /** The bulk operations of a chunk: index each document under its id. */
  function BulkOps(chunk: seq<Document>): (ops: seq<BulkOperation>)
    ensures |ops| == |chunk|
    ensures forall i :: 0 <= i < |chunk| ==> ops[i] == IndexOp(chunk[i].id, chunk[i].value)
  {
    seq(|chunk|, i requires 0 <= i < |chunk| => IndexOp(chunk[i].id, chunk[i].value))
  }

  /** Building the operations one document after the other, as the source
      pushes them into `ops`. */
  method BuildOps(chunk: seq<Document>) returns (ops: seq<BulkOperation>)
    ensures |ops| == |chunk|
    ensures forall i :: 0 <= i < |chunk| ==> ops[i] == IndexOp(chunk[i].id, chunk[i].value)
  {
    ops := [];
    for i := 0 to |chunk|
      invariant |ops| == i
      invariant forall j :: 0 <= j < i ==> ops[j] == IndexOp(chunk[j].id, chunk[j].value)
    {
      ops := ops + [IndexOp(chunk[i].id, chunk[i].value)];
    }
  }

  /** The `result` string of one bulk item `{IndexKey: {ResultKey: ...}}`, or
      the shape error the source reports for it. */
  function ItemResult(item: Json): Result<string, Error>
  {
    if !item.JObject? then Err(JsonDeserializationInvalid(ExpectedObject, item))
    else if IndexKey !in item.fields then Err(JsonDeserializationInvalid(ExpectedIndex, item))
    else if !item.fields[IndexKey].JObject? then
      Err(JsonDeserializationInvalid(ExpectedIndexObject, item))
    else if ResultKey !in item.fields[IndexKey].fields then
      Err(JsonDeserializationInvalid(ExpectedResult, item))
    else if !item.fields[IndexKey].fields[ResultKey].JString? then
      Err(JsonDeserializationInvalid(ExpectedResultString, item))
    else Ok(item.fields[IndexKey].fields[ResultKey].s)
  }

  /** An item is read iff it has the shape `{"index": {"result": <string>}}`;
      otherwise the error carries the item. */
  lemma ItemResultMeaning(item: Json)
    ensures var r := ItemResult(item);
      && (r.Ok? <==> && item.JObject? && IndexKey in item.fields && item.fields[IndexKey].JObject?
                     && ResultKey in item.fields[IndexKey].fields
                     && item.fields[IndexKey].fields[ResultKey].JString?)
      && (r.Ok? ==> r.value == item.fields[IndexKey].fields[ResultKey].s)
      && (r.Err? ==> r.error.JsonDeserializationInvalid? && r.error.json == item)
  {
  }

  predicate IsCreated(item: Json)
  {
    ItemResult(item) == Ok(Created)
  }

  /** What scanning the items from position `i` adds to the counters, and
      the chunk's verdict. `debug` is the `{:?}` rendering of an item. */
  datatype Scan = Scan(created: nat, updated: nat, result: Result<(), Error>)

  function ScanFrom(items: seq<Json>, i: nat, debug: Json -> string): Scan
    decreases |items| - i
  {
    if i >= |items| then Scan(0, 0, Ok(()))
    else
      match ItemResult(items[i])
      case Err(e) => Scan(0, 0, Err(e))
      case Ok(result) =>
        if result == Created then
          var rest := ScanFrom(items, i + 1, debug);
          Scan(rest.created + 1, rest.updated, rest.result)
        else if result == Updated then
          Scan(0, 1, Err(NotCreated(WarnItem + debug(items[i]) + WasUpdated)))
        else Scan(0, 0, Err(NotCreated(NotCreatedItem + debug(items[i]))))
  }

  /** The position of the first item that is not `created`, or the end. */
  function FirstNotCreated(items: seq<Json>, i: nat): (k: nat)
    requires i <= |items|
    ensures i <= k <= |items|
    ensures forall j :: i <= j < k ==> IsCreated(items[j])
    ensures k < |items| ==> !IsCreated(items[k])
    decreases |items| - i
  {
    if i == |items| || !IsCreated(items[i]) then i else FirstNotCreated(items, i + 1)
  }

  /** The scan counts exactly the `created` items before the first other
      one, counts that one as updated iff it says so, succeeds iff there is
      none, and reports that item's error. */
  lemma {:induction false} ScanCounts(items: seq<Json>, i: nat, debug: Json -> string)
    requires i <= |items|
    ensures var s := ScanFrom(items, i, debug);
      var k := FirstNotCreated(items, i);
      && s.created == k - i
      && (s.result.Ok? <==> k == |items|)
      && (s.updated == 1 <==> k < |items| && ItemResult(items[k]) == Ok(Updated))
      && s.updated <= 1
      && (k < |items| && ItemResult(items[k]).Err? ==> s.result == Err(ItemResult(items[k]).error))
      && (k < |items| && ItemResult(items[k]) == Ok(Updated) ==>
            s.result == Err(NotCreated(WarnItem + debug(items[k]) + WasUpdated)))
      && (k < |items| && ItemResult(items[k]).Ok? && ItemResult(items[k]).value != Updated ==>
            s.result == Err(NotCreated(NotCreatedItem + debug(items[k]))))
    decreases |items| - i
  {
    if i < |items| && IsCreated(items[i]) {
      ScanCounts(items, i + 1, debug);
    }
  }

  /** Items after the first one that is not `created` are never looked at. */
  lemma {:induction false} ScanIgnoresRest(items: seq<Json>, more: seq<Json>, i: nat, debug: Json -> string)
    requires i <= |items| && FirstNotCreated(items, i) < |items|
    ensures ScanFrom(items + more, i, debug) == ScanFrom(items, i, debug)
    decreases |items| - i
  {
    assert (items + more)[i] == items[i];
    if IsCreated(items[i]) {
      ScanIgnoresRest(items, more, i + 1, debug);
    }
  }

  /** What one chunk does, given the bulk answer `resp`: how much it adds to
      the counters and its outcome. A transport failure panics (`send bulk`).
      `fail` turns an error answer into the adapter's error; the ingestion
      uses `EsClassify.FromFailure` (see `Ingestion`). */
  datatype ChunkReport = ChunkReport(created: nat, updated: nat, outcome: Outcome<()>)

  function ScanReport(s: Scan): ChunkReport
  {
    ChunkReport(s.created, s.updated, if s.result.Ok? then Done(()) else Failed(s.result.error))
  }

  function ChunkEffect(resp: Response<JsonBody>, debug: Json -> string,
                       fail: Option<Exception> -> Error): (c: ChunkReport)
    ensures c.created > 0 || c.updated > 0 ==> resp.Success? && resp.body.JsonValue?
    ensures c.outcome.Panicked? <==> resp.TransportFailure?
  {
    match resp
    case TransportFailure(_) => ChunkReport(0, 0, Panicked(SendBulk))
    case FailureStatus(exception) => ChunkReport(0, 0, Failed(fail(exception)))
    case Success(NotJson(source)) => ChunkReport(0, 0, Failed(JsonDeserializationError(source)))
    case Success(JsonValue(json)) =>
      if !json.JObject? then ChunkReport(0, 0, Failed(JsonDeserializationInvalid(ExpectedObject, json)))
      else if ItemsKey !in json.fields then
        ChunkReport(0, 0, Failed(JsonDeserializationInvalid(ExpectedItems, json)))
      else if !json.fields[ItemsKey].JArray? then
        ChunkReport(0, 0, Failed(JsonDeserializationInvalid(ExpectedItemsArray, json)))
      else ScanReport(ScanFrom(json.fields[ItemsKey].items, 0, debug))
  }

  /** `c` is what the `k`-th chunk's request does. */
  predicate Reported(c: ChunkReport, k: nat, chunk: seq<Document>,
                     bulk: (nat, seq<BulkOperation>) -> Response<JsonBody>, debug: Json -> string,
                     fail: Option<Exception> -> Error)
  {
    c == ChunkEffect(bulk(k, BulkOps(chunk)), debug, fail)
  }

  /** `rs` is what each chunk's request does, chunk by chunk. */
  predicate AllReported(rs: seq<ChunkReport>, chunks: seq<seq<Document>>,
                        bulk: (nat, seq<BulkOperation>) -> Response<JsonBody>, debug: Json -> string,
                        fail: Option<Exception> -> Error)
  {
    && |rs| == |chunks|
    && forall k {:trigger Reported(rs[k], k, chunks[k], bulk, debug, fail)} ::
         0 <= k < |chunks| ==> Reported(rs[k], k, chunks[k], bulk, debug, fail)
  }

  /** `insert_chunk_in_index`, the `k`-th bulk request of an ingestion:
      updates the shared counters by what the chunk's answer reports. */
  method InsertChunk(k: nat, chunk: seq<Document>, stats: InsertStats,
                     bulk: (nat, seq<BulkOperation>) -> Response<JsonBody>, debug: Json -> string,
                     fail: Option<Exception> -> Error, ghost chunks: seq<seq<Document>>, ghost rs: seq<ChunkReport>)
    returns (r: Outcome<()>)
    requires k < |chunks| && chunk == chunks[k] && AllReported(rs, chunks, bulk, debug, fail)
    modifies stats
    ensures var c := rs[k];
      && stats.created == old(stats.created) + c.created
      && stats.updated == old(stats.updated) + c.updated
      && stats.error == old(stats.error)
      && r == c.outcome
  {
    ghost var c := rs[k];
    assert Reported(c, k, chunk, bulk, debug, fail);
    var ops := BuildOps(chunk);
    assert ops == BulkOps(chunk);
    var resp := bulk(k, ops);
    match resp {
      case TransportFailure(_) =>
        return Panicked(SendBulk);
      case FailureStatus(exception) =>
        return Failed(fail(exception));
      case Success(NotJson(source)) =>
        return Failed(JsonDeserializationError(source));
      case Success(JsonValue(json)) =>
        if !json.JObject? {
          return Failed(JsonDeserializationInvalid(ExpectedObject, json));
        }
        if ItemsKey !in json.fields {
          return Failed(JsonDeserializationInvalid(ExpectedItems, json));
        }
        if !json.fields[ItemsKey].JArray? {
          return Failed(JsonDeserializationInvalid(ExpectedItemsArray, json));
        }
        var res := ScanItems(json.fields[ItemsKey].items, stats, debug);
        if res.Ok? {
          return Done(());
        } else {
          return Failed(res.error);
        }
    }
  }

  /** The loop over a bulk answer's items: counts each `created` one and
      stops at the first other one. */
  method ScanItems(items: seq<Json>, stats: InsertStats, debug: Json -> string) returns (res: Result<(), Error>)
    modifies stats
    ensures var s := ScanFrom(items, 0, debug);
      && stats.created == old(stats.created) + s.created
      && stats.updated == old(stats.updated) + s.updated
      && stats.error == old(stats.error)
      && res == s.result
  {
    ghost var c0 := stats.created;
    ghost var u0 := stats.updated;
    ghost var s := ScanFrom(items, 0, debug);
    ghost var k := FirstNotCreated(items, 0);
    ScanCounts(items, 0, debug);
    res := Ok(());
    var i := 0;
    while i < |items| && res.Ok?
      invariant 0 <= i <= |items|
      invariant stats.error == old(stats.error)
      invariant res.Ok? ==> i <= k && stats.created == c0 + i && stats.updated == u0
      invariant res.Err? ==> i == k + 1 && stats.created == c0 + k && stats.updated == u0 + s.updated && res == s.result
      decreases |items| - i
    {
      var item := items[i];
      var result := ItemResult(item);
      if i < k {
        assert IsCreated(items[i]);
      }
      match result {
        case Err(e) =>
          res := Err(e);
        case Ok(value) =>
          if value == Created {
            stats.created := stats.created + 1;
          } else if value == Updated {
            stats.updated := stats.updated + 1;
            res := Err(NotCreated(WarnItem + debug(item) + WasUpdated));
          } else {
            res := Err(NotCreated(NotCreatedItem + debug(item)));
          }
      }
      i := i + 1;
    }
    if res.Ok? {
      assert k == |items| && s.result.Ok?;
      assert s.result.value == () == res.value;
      assert res == s.result;
    } else {
      assert res == s.result;
    }
  }

  // ---------------------------------------------------------------------
  // The whole ingestion

  /** What each chunk's bulk request does, chunk by chunk. */
  function Reports(chunks: seq<seq<Document>>, bulk: (nat, seq<BulkOperation>) -> Response<JsonBody>,
                   debug: Json -> string, fail: Option<Exception> -> Error): (rs: seq<ChunkReport>)
    ensures |rs| == |chunks|
    ensures forall k :: 0 <= k < |chunks| ==> rs[k] == ChunkEffect(bulk(k, BulkOps(chunks[k])), debug, fail)
  {
    seq(|chunks|, k requires 0 <= k < |chunks| => ChunkEffect(bulk(k, BulkOps(chunks[k])), debug, fail))
  }

  /** The message of the first chunk from the `k`-th on that panics. */
  function PanicFrom(rs: seq<ChunkReport>, k: nat): (p: Option<string>)
    ensures p.None? <==> forall j :: k <= j < |rs| ==> !rs[j].outcome.Panicked?
    decreases |rs| - k
  {
    if k >= |rs| then None
    else if rs[k].outcome.Panicked? then Some(rs[k].outcome.message)
    else PanicFrom(rs, k + 1)
  }

  /** The counters the first `k` chunks add up to. */
  function CountsUpTo(rs: seq<ChunkReport>, k: nat): (c: Counts)
    requires k <= |rs|
    ensures c.error == 0
  {
    if k == 0 then Counts(0, 0, 0)
    else
      var c := CountsUpTo(rs, k - 1);
      Counts(c.created + rs[k - 1].created, c.updated + rs[k - 1].updated, 0)
  }

  /** The first panicking chunk's message is the ingestion's panic. */
  lemma {:induction false} PanicAt(rs: seq<ChunkReport>, j: nat, k: nat)
    requires j <= k < |rs| && rs[k].outcome.Panicked?
    requires forall i :: j <= i < k ==> !rs[i].outcome.Panicked?
    ensures PanicFrom(rs, j) == Some(rs[k].outcome.message)
    decreases k - j
  {
    if j < k {
      PanicAt(rs, j + 1, k);
    }
  }

  /** What ingesting chunks with these reports produces: the first panic,
      or else the counters of all chunks summed. Chunk errors do not stop
      the ingestion and are not reported. */
  function Total(rs: seq<ChunkReport>): Outcome<Counts>
  {
    match PanicFrom(rs, 0)
    case Some(m) => Panicked(m)
    case None => Done(CountsUpTo(rs, |rs|))
  }

  /** What ingesting `docs` produces; an error answer is classified by
      `FromFailure`. */
  function Ingestion(docs: seq<Document>, bulk: (nat, seq<BulkOperation>) -> Response<JsonBody>,
                     debug: Json -> string): Outcome<Counts>
  {
    Total(Reports(Chunks(docs), bulk, debug, FromFailure))
  }

  /** `insert_documents_in_index`: per-chunk errors are dropped and the
      counters of every chunk are summed. */
  method InsertDocuments(docs: seq<Document>, bulk: (nat, seq<BulkOperation>) -> Response<JsonBody>,
                         debug: Json -> string)
    returns (r: Outcome<Counts>)
    ensures r == Ingestion(docs, bulk, debug)
  {
    var chunks := Chunks(docs);
    r := InsertChunks(chunks, Reports(chunks, bulk, debug, FromFailure), bulk, debug, FromFailure);
  }

  /** The loop over the chunks, against what each chunk's request does. */
  method InsertChunks(chunks: seq<seq<Document>>, ghost rs: seq<ChunkReport>,
                      bulk: (nat, seq<BulkOperation>) -> Response<JsonBody>, debug: Json -> string,
                      fail: Option<Exception> -> Error)
    returns (r: Outcome<Counts>)
    requires AllReported(rs, chunks, bulk, debug, fail)
    ensures r == Total(rs)
  {
    var stats := new InsertStats();
    var k := 0;
    while k < |chunks|
      invariant 0 <= k <= |chunks|
      invariant forall j :: 0 <= j < k ==> !rs[j].outcome.Panicked?
      invariant stats.created == CountsUpTo(rs, k).created
      invariant stats.updated == CountsUpTo(rs, k).updated
      invariant stats.error == 0
      decreases |chunks| - k
    {
      var res := InsertChunk(k, chunks[k], stats, bulk, debug, fail, chunks, rs);
      if res.Panicked? {
        PanicAt(rs, 0, k);
        return Panicked(res.message);
      }
      k := k + 1;
    }
    return Done(Counts(stats.created, stats.updated, stats.error));
  }

  /** Ingestion never fails with an error (chunk errors are discarded) and
      never counts an error; it panics exactly when some chunk's request
      panics. */
  lemma {:induction false} IngestionOutcomes(docs: seq<Document>, bulk: (nat, seq<BulkOperation>) -> Response<JsonBody>,
                          debug: Json -> string)
    ensures !Ingestion(docs, bulk, debug).Failed?
    ensures Ingestion(docs, bulk, debug).Done? ==> Ingestion(docs, bulk, debug).value.error == 0
    ensures var chunks := Chunks(docs);
      Ingestion(docs, bulk, debug).Panicked? <==>
        exists k :: 0 <= k < |chunks| && bulk(k, BulkOps(chunks[k])).TransportFailure?
  {
    var chunks := Chunks(docs);
    var rs := Reports(chunks, bulk, debug, FromFailure);
    if Ingestion(docs, bulk, debug).Panicked? {
      assert PanicFrom(rs, 0).Some?;
      var k :| 0 <= k < |rs| && rs[k].outcome.Panicked?;
      assert bulk(k, BulkOps(chunks[k])).TransportFailure?;
    }
  }

  // ---------------------------------------------------------------------
  // A backend that creates every document

  /** The item the backend reports for a freshly created document. */
  const CreatedItem: Json := JObject(map[IndexKey := JObject(map[ResultKey := JString(Created)])])

  /** The answer of a backend to which every document is new. */
  function FreshBulk(k: nat, ops: seq<BulkOperation>): Response<JsonBody>
  {
    Success(JsonValue(JObject(map[ItemsKey := JArray(seq(|ops|, _ => CreatedItem))])))
  }

  lemma {:induction false} ScanAllCreated(n: nat, i: nat, debug: Json -> string)
    requires i <= n
    ensures ScanFrom(seq(n, _ => CreatedItem), i, debug) == Scan(n - i, 0, Ok(()))
    decreases n - i
  {
    if i < n {
      ScanAllCreated(n, i + 1, debug);
    }
  }

  lemma {:induction false} FlattenSnoc(cs: seq<seq<Document>>, c: seq<Document>)
    ensures Flatten(cs + [c]) == Flatten(cs) + c
    decreases |cs|
  {
    if cs == [] {
      assert [] + [c] == [c];
      assert Flatten([c]) == c + Flatten([]);
    } else {
      assert (cs + [c])[1..] == cs[1..] + [c];
      FlattenSnoc(cs[1..], c);
    }
  }

  /** A chunk sent to a backend to which every document is new counts each
      of its documents as created. */
  lemma FreshChunk(k: nat, chunk: seq<Document>, debug: Json -> string, fail: Option<Exception> -> Error)
    ensures ChunkEffect(FreshBulk(k, BulkOps(chunk)), debug, fail) == ChunkReport(|chunk|, 0, Done(()))
  {
    ScanAllCreated(|chunk|, 0, debug);
  }

  /** Chunks that each count all their documents as created add up to the
      number of documents. */
  lemma {:induction false} AllCreatedCount(chunks: seq<seq<Document>>, rs: seq<ChunkReport>, k: nat)
    requires |rs| == |chunks| && k <= |rs|
    requires forall j :: 0 <= j < |rs| ==> rs[j] == ChunkReport(|chunks[j]|, 0, Done(()))
    ensures CountsUpTo(rs, k) == Counts(|Flatten(chunks[..k])|, 0, 0)
  {
    if k == 0 {
      assert chunks[..0] == [];
    } else {
      AllCreatedCount(chunks, rs, k - 1);
      assert chunks[..k] == chunks[..k - 1] + [chunks[k - 1]];
      FlattenSnoc(chunks[..k - 1], chunks[k - 1]);
    }
  }

  /** Against a backend to which every document is new, each chunk counts
      all its documents as created and none panics. */
  lemma FreshReports(chunks: seq<seq<Document>>, debug: Json -> string, fail: Option<Exception> -> Error)
    ensures var rs := Reports(chunks, FreshBulk, debug, fail);
      forall j :: 0 <= j < |rs| ==> rs[j] == ChunkReport(|chunks[j]|, 0, Done(()))
  {
    var rs := Reports(chunks, FreshBulk, debug, fail);
    forall j | 0 <= j < |rs|
      ensures rs[j] == ChunkReport(|chunks[j]|, 0, Done(()))
    {
      FreshChunk(j, chunks[j], debug, fail);
    }
  }

  lemma FreshTotal(chunks: seq<seq<Document>>, debug: Json -> string, fail: Option<Exception> -> Error)
    ensures Total(Reports(chunks, FreshBulk, debug, fail)) == Done(Counts(|Flatten(chunks)|, 0, 0))
  {
    var rs := Reports(chunks, FreshBulk, debug, fail);
    FreshReports(chunks, debug, fail);
    AllCreatedCount(chunks, rs, |chunks|);
    assert PanicFrom(rs, 0).None?;
    assert chunks[..|chunks|] == chunks;
  }

  /** Ingesting N documents that are all new counts N created, none
      updated and no error (the adapter's own test expects 6 for 6). */
  lemma FreshDocumentsAllCreated(docs: seq<Document>, debug: Json -> string)
    ensures Ingestion(docs, FreshBulk, debug) == Done(Counts(|docs|, 0, 0))
  {
    FreshTotal(Chunks(docs), debug, FromFailure);
    ChunksPartition(docs);
  }

  // ---------------------------------------------------------------------
  // The counters do not always add up to the number of documents

  const NoopItem: Json := JObject(map[IndexKey := JObject(map[ResultKey := JString(NoopResult)])])

  /** A backend that answers `created`, `noop`, `created` to a bulk. */
  function MixedBulk(k: nat, ops: seq<BulkOperation>): Response<JsonBody>
  {
    Success(JsonValue(JObject(map[ItemsKey := JArray([CreatedItem, NoopItem, CreatedItem])])))
  }

  /** Three documents, one chunk: the scan stops at the `noop` item, so only
      one document is counted and `created + updated + error` is 1, not 3. */
  lemma CountsMayFallShort(debug: Json -> string)
    ensures var docs := [Document("a", JNull), Document("b", JNull), Document("c", JNull)];
      var r := Ingestion(docs, MixedBulk, debug);
      && r == Done(Counts(1, 0, 0))
      && r.value.created + r.value.updated + r.value.error < |docs|
  {
    var docs := [Document("a", JNull), Document("b", JNull), Document("c", JNull)];
    var items := [CreatedItem, NoopItem, CreatedItem];
    assert ItemResult(items[1]) == Ok(NoopResult);
    assert ScanFrom(items, 1, debug) == Scan(0, 0, Err(NotCreated(NotCreatedItem + debug(NoopItem))));
    assert ScanFrom(items, 0, debug).created == 1;
    assert Chunks(docs) == [docs];
    var rs := Reports(Chunks(docs), MixedBulk, debug, FromFailure);
    assert rs[0] == ChunkReport(1, 0, Failed(NotCreated(NotCreatedItem + debug(NoopItem))));
    assert CountsUpTo(rs, 1) == Counts(1, 0, 0);
  }
}
