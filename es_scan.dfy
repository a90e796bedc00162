/**
 * Listing every document of an index (`list_documents`): a state machine
 * `Start -> Next* -> End` over a point-in-time (PIT) handle, paging with
 * `search_after` on the sort key `(indexed_at, tiebreaker)`.
 *
 * Every request's answer is read as JSON without looking at the status
 * code, and every missing piece is an `unwrap`/`expect`, i.e. a panic. The
 * backend is an oracle `server(request)`, `None` when the request fails or
 * its body is not JSON. A concrete backend (`PitServer`) over a sorted list
 * of documents shows that the machine yields every document exactly once,
 * in order, and closes its handle.
 */
module EsScan {
  import opened Common

  const U64Limit: nat := 0x1_0000_0000_0000_0000

  // The keys of the backend's JSON answers.
  const KeyPitId: string := "pit_id"
  const KeyHits: string := "hits"
  const KeySort: string := "sort"
  const KeySource: string := "_source"
  const KeyId: string := "id"

  // Labels for the places that can panic while listing. Five of them,
  // "response has id", "response has pit_id", "response has hits", "hit has
  // sort" and "object has source", are the source's own `expect` messages.
  // The others name bare `unwrap()` calls, where the program panics with
  // Rust's unwrap text and not with the label. The same page reader serves
  // the resumed searches, which have no `expect`, and the decoding of
  // `_source`, which unwraps; there these labels stand in for unwraps too.
  const MsgSearch: string := "search"
  const MsgTimestamp: string := "timestamp"
  const MsgTiebreaker: string := "tiebreaker"
  const MsgSort1: string := "sort[1]"
  const MsgSort0: string := "sort[0]"
  const MsgSortArray: string := "sort array"
  const MsgHasPitId: string := "response has pit_id"
  const MsgHasId: string := "response has id"
  const MsgHasHits: string := "response has hits"
  const MsgPitIdString: string := "pit_id is a string"
  const MsgOpenPit: string := "open point in time"
  const MsgHasSource: string := "object has source"
  const MsgIdString: string := "id is a string"
  const MsgHitsObject: string := "hits object"
  const MsgHitsArray: string := "hits array"
  const MsgHitObject: string := "hit object"
  const MsgHitHasSort: string := "hit has sort"
  const MsgClosePit: string := "close point in time"

  /** `ContinuationToken`: the PIT id and the sort key of the last hit. */
  datatype ContinuationToken = ContinuationToken(pit: string, timestamp: nat, tiebreaker: nat)

  /** `State` */
  datatype State = Start | Next(token: ContinuationToken) | End(pit: string)

  /** The requests the machine makes. `after` is the `search_after` key. */
  datatype ScanRequest =
    | OpenPit(index: string)
    | Search(pit: string, after: Option<(nat, nat)>)
    | ClosePit(pit: string)

  /** What one step of `unfold` does: emit documents and continue, stop
      (`None`), or panic. */
  datatype StepOutcome<T> = Yield(items: seq<T>, next: State) | Stop | Panic(message: string)

  /** A step's outcome and the requests it sent, in order. */
  datatype StepResult<T> = StepResult(sent: seq<ScanRequest>, outcome: StepOutcome<T>)

  // ---------------------------------------------------------------------
  // Reading JSON the way serde_json's accessors do

  function Get(j: Json, key: string): Option<Json>
  {
    if j.JObject? && key in j.fields then Some(j.fields[key]) else None
  }

  function AsArray(j: Json): Option<seq<Json>>
  {
    if j.JArray? then Some(j.items) else None
  }

  /** `as_u64`: only integers in range. */
  function AsU64(j: Json): Option<nat>
  {
    if j.JInt? && 0 <= j.i < U64Limit then Some(j.i as nat) else None
  }

  /** A hit whose `_source` decodes. */
  predicate Decodable<T>(hit: Json, decode: Json -> Option<T>)
  {
    Get(hit, KeySource).Some? && decode(Get(hit, KeySource).value).Some?
  }

  /** The `_source` of every hit, decoded; None if any of them fails. */
  function DecodeHits<T>(hits: seq<Json>, decode: Json -> Option<T>): Option<seq<T>>
  {
    if forall k | 0 <= k < |hits| :: Decodable(hits[k], decode)
    then Some(seq(|hits|, k requires 0 <= k < |hits| && Decodable(hits[k], decode) =>
                            decode(Get(hits[k], KeySource).value).value))
    else None
  }

  /** The answer's `pit_id`; `Err` holds the message of the panic. */
  function PitId(body: Json): Result<string, string>
  {
    match Get(body, KeyPitId)
    case None => Err(MsgHasPitId)
    case Some(v) => if v.JString? then Ok(v.s) else Err(MsgPitIdString)
  }

  /** The answer's `hits.hits` array. */
  function PageHits(body: Json): Result<seq<Json>, string>
  {
    match Get(body, KeyHits)
    case None => Err(MsgHasHits)
    case Some(h) =>
      if !h.JObject? || KeyHits !in h.fields then Err(MsgHitsObject)
      else if !h.fields[KeyHits].JArray? then Err(MsgHitsArray)
      else Ok(h.fields[KeyHits].items)
  }

  /** A hit's `sort[0]` and `sort[1]`, each read as a u64. */
  function SortKey(hit: Json): Result<(nat, nat), string>
  {
    if !hit.JObject? then Err(MsgHitObject)
    else
      match Get(hit, KeySort)
      case None => Err(MsgHitHasSort)
      case Some(sortValue) =>
        match AsArray(sortValue)
        case None => Err(MsgSortArray)
        case Some(sort) =>
          if |sort| < 1 then Err(MsgSort0)
          else if AsU64(sort[0]).None? then Err(MsgTimestamp)
          else if |sort| < 2 then Err(MsgSort1)
          else if AsU64(sort[1]).None? then Err(MsgTiebreaker)
          else Ok((AsU64(sort[0]).value, AsU64(sort[1]).value))
  }

  /** A search answer: an empty page ends the listing with the answer's
      PIT id; otherwise its documents are emitted and the token holds that
      PIT id and the sort key of the page's last hit. */
  function ReadPage<T>(body: Json, decode: Json -> Option<T>): StepOutcome<T>
  {
    match PitId(body)
    case Err(m) => Panic(m)
    case Ok(pit) =>
      match PageHits(body)
      case Err(m) => Panic(m)
      case Ok(hits) =>
        if hits == [] then Yield([], End(pit))
        else
          match SortKey(hits[|hits| - 1])
          case Err(m) => Panic(m)
          case Ok(key) =>
            match DecodeHits(hits, decode)
            case None => Panic(MsgHasSource)
            case Some(items) => Yield(items, Next(ContinuationToken(pit, key.0, key.1)))
  }

  /** What a page read yields, in terms of the answer's parts. */
  lemma ReadPageMeaning<T>(body: Json, decode: Json -> Option<T>)
    ensures var r := ReadPage(body, decode);
      && (!r.Yield? ==> r.Panic?)
      && (r.Yield? ==> PitId(body).Ok? && PageHits(body).Ok? && (|r.items| > 0 <==> r.next.Next?))
      && (r.Yield? && r.next.End? ==> PitId(body) == Ok(r.next.pit) && PageHits(body) == Ok([]))
      && (r.Yield? && r.next.Next? ==>
            && PitId(body) == Ok(r.next.token.pit)
            && |PageHits(body).value| == |r.items|
            && SortKey(PageHits(body).value[|r.items| - 1]) == Ok((r.next.token.timestamp, r.next.token.tiebreaker))
            && DecodeHits(PageHits(body).value, decode) == Some(r.items))
  {
  }

  /** The id of a freshly opened point in time. */
  function OpenedPit(answer: Json): Result<string, string>
  {
    match Get(answer, KeyId)
    case None => Err(MsgHasId)
    case Some(v) => if v.JString? then Ok(v.s) else Err(MsgIdString)
  }

  /** One step of the machine. */
  function Step<T>(index: string, state: State, server: ScanRequest -> Option<Json>,
                   decode: Json -> Option<T>): StepResult<T>
  {
    match state
    case Start => (
      match server(OpenPit(index))
      case None => StepResult([OpenPit(index)], Panic(MsgOpenPit))
      case Some(answer) =>
        match OpenedPit(answer)
        case Err(m) => StepResult([OpenPit(index)], Panic(m))
        case Ok(pit) =>
          var search := Search(pit, None);
          match server(search)
          case None => StepResult([OpenPit(index), search], Panic(MsgSearch))
          case Some(body) => StepResult([OpenPit(index), search], ReadPage(body, decode)))
    case Next(token) => (
      var search := Search(token.pit, Some((token.timestamp, token.tiebreaker)));
      match server(search)
      case None => StepResult([search], Panic(MsgSearch))
      case Some(body) => StepResult([search], ReadPage(body, decode)))
    case End(pit) =>
      match server(ClosePit(pit))
      case None => StepResult([ClosePit(pit)], Panic(MsgClosePit))
      case Some(_) => StepResult([ClosePit(pit)], Stop)
  }

  /** The requests each state sends: `Start` opens a handle on the index
      and searches it from the beginning, `Next` resumes after its token's
      key, and `End` closes its handle and never yields. */
  lemma StepRequests<T>(index: string, state: State, server: ScanRequest -> Option<Json>,
                        decode: Json -> Option<T>)
    ensures var r := Step(index, state, server, decode);
      && (state.Start? ==> |r.sent| >= 1 && r.sent[0] == OpenPit(index) && !r.outcome.Stop?)
      && (state.Start? && |r.sent| == 2 ==>
            && server(OpenPit(index)).Some?
            && OpenedPit(server(OpenPit(index)).value).Ok?
            && r.sent[1] == Search(OpenedPit(server(OpenPit(index)).value).value, None))
      && (state.Next? ==>
            && r.sent == [Search(state.token.pit, Some((state.token.timestamp, state.token.tiebreaker)))]
            && !r.outcome.Stop?)
      && (state.End? ==> r.sent == [ClosePit(state.pit)] && !r.outcome.Yield?)
  {
  }

  // ---------------------------------------------------------------------
  // Running the machine

  /** How a listing ended: the machine stopped, panicked, or had not
      stopped after the allowed number of steps. */
  datatype RunEnd = Finished | Panicked(message: string) | OutOfSteps

  /** The documents the stream yields, the requests sent, and how it ended. */
  datatype Listing<T> = Listing(items: seq<T>, sent: seq<ScanRequest>, end: RunEnd)

  /** A step function, as handed to `unfold`. */
  type Stepper<T> = State -> StepResult<T>

  /** The machine of `list_documents` over one index. */
  function Machine<T>(index: string, server: ScanRequest -> Option<Json>, decode: Json -> Option<T>): Stepper<T>
  {
    (state: State) => Step(index, state, server, decode)
  }

  /** At most `steps` steps of `step` from `state`. */
  function Run<T>(step: Stepper<T>, state: State, steps: nat): Listing<T>
    decreases steps
  {
    if steps == 0 then Listing([], [], OutOfSteps)
    else
      var s := step(state);
      match s.outcome
      case Stop => Listing([], s.sent, Finished)
      case Panic(m) => Listing([], s.sent, Panicked(m))
      case Yield(items, next) =>
        var rest := Run(step, next, steps - 1);
        Listing(items + rest.items, s.sent + rest.sent, rest.end)
  }

  /** One unfolding of `Run` past a step that yields. */
  lemma RunYield<T>(step: Stepper<T>, state: State, steps: nat, items: seq<T>, next: State)
    requires steps > 0 && step(state).outcome == Yield(items, next)
    ensures var rest := Run(step, next, steps - 1);
      Run(step, state, steps) == Listing(items + rest.items, step(state).sent + rest.sent, rest.end)
  {
  }

  /** A listing with `items` and `sent` already collected in front. */
  function Prepend<T>(items: seq<T>, sent: seq<ScanRequest>, l: Listing<T>): Listing<T>
  {
    Listing(items + l.items, sent + l.sent, l.end)
  }

  /** Collecting a yielding step's page moves it from the run to the front. */
  lemma PrependYield<T>(step: Stepper<T>, state: State, steps: nat, items: seq<T>, sent: seq<ScanRequest>)
    requires steps > 0 && step(state).outcome.Yield?
    ensures var s := step(state);
      Prepend(items, sent, Run(step, state, steps))
        == Prepend(items + s.outcome.items, sent + s.sent, Run(step, s.outcome.next, steps - 1))
  {
    var s := step(state);
    var rest := Run(step, s.outcome.next, steps - 1);
    RunYield(step, state, steps, s.outcome.items, s.outcome.next);
    assert items + (s.outcome.items + rest.items) == (items + s.outcome.items) + rest.items;
    assert sent + (s.sent + rest.sent) == (sent + s.sent) + rest.sent;
  }

  /** A step that does not yield ends the run. */
  lemma PrependHalt<T>(step: Stepper<T>, state: State, steps: nat, items: seq<T>, sent: seq<ScanRequest>)
    requires steps > 0 && !step(state).outcome.Yield?
    ensures var s := step(state);
      Prepend(items, sent, Run(step, state, steps))
        == Listing(items, sent + s.sent, if s.outcome.Stop? then Finished else Panicked(s.outcome.message))
  {
    assert items + [] == items;
  }

  /** `unfold` pulled for at most `steps` steps: the documents of every
      page, the requests sent, and how the stream ended. */
  method Unfold<T>(step: Stepper<T>, steps: nat) returns (items: seq<T>, sent: seq<ScanRequest>, end: RunEnd)
    ensures Listing(items, sent, end) == Run(step, Start, steps)
  {
    var state := Start;
    var left: nat := steps;
    items, sent := [], [];
    assert Prepend(items, sent, Run(step, state, left)) == Run(step, Start, steps);
    while left > 0
      invariant left <= steps
      invariant Prepend(items, sent, Run(step, state, left)) == Run(step, Start, steps)
      decreases left
    {
      var s := step(state);
      if !s.outcome.Yield? {
        PrependHalt(step, state, left, items, sent);
        return items, sent + s.sent, if s.outcome.Stop? then Finished else Panicked(s.outcome.message);
      }
      PrependYield(step, state, left, items, sent);
      items := items + s.outcome.items;
      sent := sent + s.sent;
      state := s.outcome.next;
      left := left - 1;
    }
    assert items + [] == items && sent + [] == sent;
    return items, sent, OutOfSteps;
  }

  /** `list_documents`, its stream consumed for at most `steps` steps. */
  method ListDocuments<T>(index: string, server: ScanRequest -> Option<Json>, decode: Json -> Option<T>,
                          steps: nat)
    returns (items: seq<T>, sent: seq<ScanRequest>, end: RunEnd)
    ensures Listing(items, sent, end) == Run(Machine(index, server, decode), Start, steps)
  {
    items, sent, end := Unfold(Machine(index, server, decode), steps);
  }

  // ---------------------------------------------------------------------
  // A point-in-time backend over sorted documents

  /** A stored document with its sort key. */
  datatype Doc = Doc(timestamp: nat, tiebreaker: nat, source: Json)

  predicate KeyLess(a: (nat, nat), b: (nat, nat))
  {
    a.0 < b.0 || (a.0 == b.0 && a.1 < b.1)
  }

  function Key(d: Doc): (nat, nat)
  {
    (d.timestamp, d.tiebreaker)
  }

  /** Strictly increasing keys, each within u64. */
  predicate Sorted(docs: seq<Doc>)
  {
    && (forall i, j :: 0 <= i < j < |docs| ==> KeyLess(Key(docs[i]), Key(docs[j])))
    && (forall i :: 0 <= i < |docs| ==> docs[i].timestamp < U64Limit && docs[i].tiebreaker < U64Limit)
  }

  /** The first position at or after `i` whose key is past `after`. */
  function FirstAfter(docs: seq<Doc>, after: (nat, nat), i: nat): (r: nat)
    requires i <= |docs|
    ensures i <= r <= |docs|
    decreases |docs| - i
  {
    if i == |docs| || KeyLess(after, Key(docs[i])) then i else FirstAfter(docs, after, i + 1)
  }

  function Min(a: nat, b: nat): nat
  {
    if a <= b then a else b
  }

  function HitJson(d: Doc): Json
  {
    JObject(map[KeySource := d.source, KeySort := JArray([JInt(d.timestamp), JInt(d.tiebreaker)])])
  }

  function HitsJson(docs: seq<Doc>): seq<Json>
  {
    seq(|docs|, k requires 0 <= k < |docs| => HitJson(docs[k]))
  }

  function Sources(docs: seq<Doc>): seq<Json>
  {
    seq(|docs|, k requires 0 <= k < |docs| => docs[k].source)
  }

  /** The sources of adjacent slices concatenate. */
  lemma SourcesSplit(docs: seq<Doc>, i: nat, k: nat, n: nat)
    requires i <= k <= n <= |docs|
    ensures Sources(docs[i..n]) == Sources(docs[i..k]) + Sources(docs[k..n])
  {
    var l := Sources(docs[i..k]);
    var r := Sources(docs[k..n]);
    forall m | 0 <= m < n - i
      ensures Sources(docs[i..n])[m] == (l + r)[m]
    {
      if m < k - i {
        assert (l + r)[m] == l[m];
      } else {
        assert (l + r)[m] == r[m - (k - i)];
      }
    }
  }

  /** The page a search answers: at most `size` documents past `after`. */
  function PageStart(docs: seq<Doc>, after: Option<(nat, nat)>): (r: nat)
    ensures r <= |docs|
  {
    if after.None? then 0 else FirstAfter(docs, after.value, 0)
  }

  function SearchAnswer(docs: seq<Doc>, size: nat, pitId: string, after: Option<(nat, nat)>): Json
  {
    var i := PageStart(docs, after);
    PageAnswer(docs, pitId, i, Min(i + size, |docs|))
  }

  /** The backend: it opens the handle `pitId`, answers searches in key
      order with pages of `size`, and closes the handle. */
  function PitServer(docs: seq<Doc>, size: nat, pitId: string): ScanRequest -> Option<Json>
  {
    (req: ScanRequest) =>
      match req
      case OpenPit(_) => Some(JObject(map[KeyId := JString(pitId)]))
      case Search(_, after) => Some(SearchAnswer(docs, size, pitId, after))
      case ClosePit(_) => Some(JObject(map[]))
  }

  function Identity(j: Json): Option<Json>
  {
    Some(j)
  }

  /** In sorted documents, the first one past the key of `docs[j - 1]` is
      `docs[j]`. */
  lemma {:induction false} FirstAfterLast(docs: seq<Doc>, j: nat, i: nat)
    requires Sorted(docs) && 0 < j <= |docs| && i <= j
    ensures FirstAfter(docs, Key(docs[j - 1]), i) == j
    decreases j - i
  {
    if i < j {
      assert !KeyLess(Key(docs[j - 1]), Key(docs[i])) by {
        if i < j - 1 {
          assert KeyLess(Key(docs[i]), Key(docs[j - 1]));
        }
      }
      FirstAfterLast(docs, j, i + 1);
    }
  }

  /** The backend's answer to a search whose page is `docs[i..j]`. */
  function PageAnswer(docs: seq<Doc>, pitId: string, i: nat, j: nat): Json
    requires i <= j <= |docs|
  {
    JObject(map[KeyPitId := JString(pitId), KeyHits := JObject(map[KeyHits := JArray(HitsJson(docs[i..j]))])])
  }

  lemma SortKeyOfHit(d: Doc)
    requires d.timestamp < U64Limit && d.tiebreaker < U64Limit
    ensures SortKey(HitJson(d)) == Ok((d.timestamp, d.tiebreaker))
  {
    var sort := [JInt(d.timestamp), JInt(d.tiebreaker)];
    assert Get(HitJson(d), KeySort) == Some(JArray(sort));
  }

  lemma DecodeSources(docs: seq<Doc>)
    ensures DecodeHits(HitsJson(docs), Identity) == Some(Sources(docs))
  {
    var hits := HitsJson(docs);
    forall k | 0 <= k < |hits|
      ensures Get(hits[k], KeySource) == Some(docs[k].source)
      ensures Decodable(hits[k], Identity)
    {
      assert hits[k] == HitJson(docs[k]);
    }
    var r := DecodeHits(hits, Identity);
    assert r.Some?;
    assert r.value == Sources(docs);
  }

  /** A non-empty page read back: its documents, and the key of its last
      one in the token. */
  lemma ReadFullPage(docs: seq<Doc>, pitId: string, i: nat, j: nat)
    requires Sorted(docs) && i < j <= |docs|
    ensures ReadPage(PageAnswer(docs, pitId, i, j), Identity) ==
              Yield(Sources(docs[i..j]), Next(ContinuationToken(pitId, docs[j - 1].timestamp, docs[j - 1].tiebreaker)))
  {
    var body := PageAnswer(docs, pitId, i, j);
    var hits := HitsJson(docs[i..j]);
    assert PitId(body) == Ok(pitId);
    assert PageHits(body) == Ok(hits);
    assert hits[|hits| - 1] == HitJson(docs[j - 1]);
    SortKeyOfHit(docs[j - 1]);
    DecodeSources(docs[i..j]);
  }

  lemma ReadEmptyPage(docs: seq<Doc>, pitId: string, i: nat)
    requires i <= |docs|
    ensures ReadPage(PageAnswer(docs, pitId, i, i), Identity) == Yield([], End(pitId))
  {
    var body := PageAnswer(docs, pitId, i, i);
    assert docs[i..i] == [];
    assert HitsJson(docs[i..i]) == [];
    assert |KeyHits| != |KeyPitId|;
    assert PitId(body) == Ok(pitId);
    assert Get(body, KeyHits) == Some(JObject(map[KeyHits := JArray([])]));
    assert PageHits(body) == Ok([]);
  }

  /** What the backend answers to a search resuming after `docs[j - 1]`. */
  lemma SearchAfter(docs: seq<Doc>, size: nat, pitId: string, j: nat)
    requires Sorted(docs) && 0 < j <= |docs|
    ensures PitServer(docs, size, pitId)(Search(pitId, Some(Key(docs[j - 1]))))
            == Some(PageAnswer(docs, pitId, j, Min(j + size, |docs|)))
  {
    FirstAfterLast(docs, j, 0);
  }

  /** The state resuming after `docs[j - 1]`. */
  function After(docs: seq<Doc>, pitId: string, j: nat): State
    requires 0 < j <= |docs|
  {
    Next(ContinuationToken(pitId, docs[j - 1].timestamp, docs[j - 1].tiebreaker))
  }

  /** The step the backend makes resuming after `docs[j - 1]`: the next
      page, or the end once every document has been listed. */
  function AfterOutcome(docs: seq<Doc>, size: nat, pitId: string, j: nat): StepOutcome<Json>
    requires 0 < j <= |docs|
  {
    var j' := Min(j + size, |docs|);
    if j == |docs| then Yield([], End(pitId)) else Yield(Sources(docs[j..j']), After(docs, pitId, j'))
  }

  /** What a run from a resumed state relies on about the server. */
  predicate Pages(docs: seq<Doc>, size: nat, pitId: string, step: Stepper<Json>)
  {
    && (forall j | 0 < j <= |docs| :: PageAfter(docs, size, pitId, step, j))
    && step(End(pitId)) == StepResult([ClosePit(pitId)], Stop)
  }

  /** Resuming after `docs[j - 1]`, `step` makes the backend's step. */
  predicate PageAfter(docs: seq<Doc>, size: nat, pitId: string, step: Stepper<Json>, j: nat)
    requires 0 < j <= |docs|
  {
    step(After(docs, pitId, j)).outcome == AfterOutcome(docs, size, pitId, j)
  }

  lemma StepAfter(docs: seq<Doc>, size: nat, pitId: string, index: string, j: nat)
    requires Sorted(docs) && size > 0 && 0 < j <= |docs|
    ensures Step(index, After(docs, pitId, j), PitServer(docs, size, pitId), Identity).outcome
            == AfterOutcome(docs, size, pitId, j)
  {
    var server := PitServer(docs, size, pitId);
    var token := ContinuationToken(pitId, docs[j - 1].timestamp, docs[j - 1].tiebreaker);
    var j' := Min(j + size, |docs|);
    var body := PageAnswer(docs, pitId, j, j');
    SearchAfter(docs, size, pitId, j);
    assert server(Search(pitId, Some(Key(docs[j - 1])))) == Some(body);
    assert Step(index, Next(token), server, Identity).outcome == ReadPage(body, Identity);
    if j == |docs| {
      ReadEmptyPage(docs, pitId, j);
    } else {
      ReadFullPage(docs, pitId, j, j');
    }
  }

  /** The point-in-time backend pages as a resumed run relies on. */
  lemma PitServerPages(docs: seq<Doc>, size: nat, pitId: string, index: string)
    requires Sorted(docs) && size > 0
    ensures Pages(docs, size, pitId, Machine(index, PitServer(docs, size, pitId), Identity))
  {
    forall j | 0 < j <= |docs|
      ensures PageAfter(docs, size, pitId, Machine(index, PitServer(docs, size, pitId), Identity), j)
    {
      StepAfter(docs, size, pitId, index, j);
    }
  }

  /** The first step: open the handle and read the first page. */
  lemma StepStart(docs: seq<Doc>, size: nat, pitId: string, index: string)
    requires Sorted(docs) && size > 0
    ensures var j := Min(size, |docs|);
      var r := Step(index, Start, PitServer(docs, size, pitId), Identity);
      && r.sent == [OpenPit(index), Search(pitId, None)]
      && r.outcome == if j == 0 then Yield([], End(pitId)) else Yield(Sources(docs[..j]), After(docs, pitId, j))
  {
    var server := PitServer(docs, size, pitId);
    var j := Min(size, |docs|);
    assert OpenedPit(server(OpenPit(index)).value) == Ok(pitId);
    assert server(Search(pitId, None)) == Some(PageAnswer(docs, pitId, 0, j));
    assert docs[0..j] == docs[..j];
    if j == 0 {
      ReadEmptyPage(docs, pitId, 0);
    } else {
      ReadFullPage(docs, pitId, 0, j);
    }
  }

  /** The pages from position `j` on: every remaining document, in order,
      then the handle is closed. */
  lemma {:induction false} RunFrom(docs: seq<Doc>, size: nat, pitId: string, step: Stepper<Json>, j: nat, steps: nat)
    requires Pages(docs, size, pitId, step)
    requires size > 0 && 0 < j <= |docs| && steps >= |docs| - j + 2
    ensures var r := Run(step, After(docs, pitId, j), steps);
      && r.items == Sources(docs[j..])
      && r.end == Finished
      && |r.sent| > 0 && r.sent[|r.sent| - 1] == ClosePit(pitId)
    decreases |docs| - j
  {
    var here := After(docs, pitId, j);
    assert PageAfter(docs, size, pitId, step, j);
    var j' := Min(j + size, |docs|);
    var next := if j == |docs| then End(pitId) else After(docs, pitId, j');
    var page := if j == |docs| then [] else Sources(docs[j..j']);
    RunYield(step, here, steps, page, next);
    var rest := Run(step, next, steps - 1);
    if j == |docs| {
      assert rest == Listing([], [ClosePit(pitId)], Finished);
      assert Sources(docs[j..]) == [];
      EndsWith(step(here).sent, rest.sent, ClosePit(pitId));
    } else {
      assert next == After(docs, pitId, j');
      RunFrom(docs, size, pitId, step, j', steps - 1);
      EndsWith(step(here).sent, rest.sent, ClosePit(pitId));
      assert docs[j..] == docs[j..|docs|] && docs[j'..] == docs[j'..|docs|];
      SourcesSplit(docs, j, j', |docs|);
    }
  }

  /** The last element of a concatenation is the last of its right part. */
  lemma EndsWith(a: seq<ScanRequest>, b: seq<ScanRequest>, x: ScanRequest)
    requires |b| > 0 && b[|b| - 1] == x
    ensures |a + b| > 0 && (a + b)[|a + b| - 1] == x
  {
  }

  /** Completeness of the listing: against a point-in-time backend over
      sorted documents, the stream yields every document's source exactly
      once, in key order, and ends by closing the handle it opened. */
  lemma {:induction false} ListingIsComplete(docs: seq<Doc>, size: nat, pitId: string, index: string, steps: nat)
    requires Sorted(docs) && size > 0 && steps >= |docs| + 3
    ensures var r := Run(Machine(index, PitServer(docs, size, pitId), Identity), Start, steps);
      && r.items == Sources(docs)
      && r.end == Finished
      && r.sent[0] == OpenPit(index)
      && r.sent[|r.sent| - 1] == ClosePit(pitId)
  {
    var step := Machine(index, PitServer(docs, size, pitId), Identity);
    StepStart(docs, size, pitId, index);
    PitServerPages(docs, size, pitId, index);
    ListingFrom(docs, size, pitId, step, steps);
  }

  /** The run from `Start` for any step function that opens the handle with
      the first page and then pages as `Pages` says. */
  lemma {:induction false} ListingFrom(docs: seq<Doc>, size: nat, pitId: string, step: Stepper<Json>, steps: nat)
    requires Pages(docs, size, pitId, step) && size > 0 && steps >= |docs| + 3
    requires |step(Start).sent| > 0
    requires var j := Min(size, |docs|);
      step(Start).outcome == if j == 0 then Yield([], End(pitId)) else Yield(Sources(docs[..j]), After(docs, pitId, j))
    ensures var r := Run(step, Start, steps);
      && r.items == Sources(docs)
      && r.end == Finished
      && r.sent[0] == step(Start).sent[0]
      && r.sent[|r.sent| - 1] == ClosePit(pitId)
  {
    var j := Min(size, |docs|);
    var next := if j == 0 then End(pitId) else After(docs, pitId, j);
    var page := if j == 0 then [] else Sources(docs[..j]);
    RunYield(step, Start, steps, page, next);
    var rest := Run(step, next, steps - 1);
    var first := step(Start).sent;
    assert (first + rest.sent)[0] == first[0];
    if j == 0 {
      assert rest == Listing([], [ClosePit(pitId)], Finished);
      assert docs == [];
      EndsWith(first, rest.sent, ClosePit(pitId));
    } else {
      assert next == After(docs, pitId, j);
      RunFrom(docs, size, pitId, step, j, steps - 1);
      EndsWith(first, rest.sent, ClosePit(pitId));
      assert docs == docs[0..|docs|] && docs[..j] == docs[0..j] && docs[j..] == docs[j..|docs|];
      SourcesSplit(docs, 0, j, |docs|);
    }
  }
}
