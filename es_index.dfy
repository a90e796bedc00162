/**
 * Index-level operations of the Elasticsearch adapter: reading an index
 * configuration, the acknowledged-response check shared by index creation,
 * deletion, alias and pipeline requests, finding and refreshing an index,
 * converting what the CAT indices API reports into the domain `Index`, and
 * the alias helpers.
 *
 * The wire client is an oracle: each request's outcome is a `Response`
 * value given as a parameter, and what serde does with a text or a JSON
 * value is a function parameter.
 */
module EsIndex {
  import opened Common
  import opened EsModel
  import opened EsClassify

  // ---------------------------------------------------------------------
  // Index configuration

  /** `IndexConfiguration`: the index name, the two request parameters and
      the settings and mappings, each kept as raw JSON text. */
  datatype IndexConfiguration = IndexConfiguration(
    name: string,
    timeout: string,
    waitForActiveShards: string,
    settings: string,
    mappings: string)

  /** `TryFrom<Configuration> for IndexConfiguration`: `parse` is serde's
      reading of the configuration text, with its error display on failure. */
  function ConfigFromText(value: string, parse: string -> Result<IndexConfiguration, string>)
    : (r: Result<IndexConfiguration, Error>)
    ensures r.Ok? <==> parse(value).Ok?
    ensures r.Ok? ==> r.value == parse(value).value
    ensures r.Err? ==> r.error.InvalidConfiguration?
  {
    match parse(value)
    case Ok(config) => Ok(config)
    case Err(err) =>
      Err(InvalidConfiguration("could not deserialize index configuration: " + err + " / " + value))
  }

  /** A configuration text that does not parse is reported with the header
      "Invalid Elasticsearch Index Configuration", and the report quotes both
      the parser's complaint and the text itself. */
  lemma InvalidConfigurationReport(value: string, parse: string -> Result<IndexConfiguration, string>)
    requires parse(value).Err?
    ensures var r := ConfigFromText(value, parse);
      && r.Err?
      && StartsWith(Display(r.error), "Invalid Elasticsearch Index Configuration")
      && Contains(Display(r.error), parse(value).error)
      && Contains(Display(r.error), value)
  {
    var err := parse(value).error;
    var d := Display(ConfigFromText(value, parse).error);
    var kind := "Invalid Elasticsearch Index Configuration";
    var head := kind + ": " + "could not deserialize index configuration: ";
    assert d == head + err + (" / " + value);
    assert d[..|kind|] == kind;
    ContainsConcat(head, err, " / " + value);
    assert d == head + err + " / " + value + [];
    ContainsConcat(head + err + " / ", value, []);
  }

  // ---------------------------------------------------------------------
  // Acknowledged responses

  /** The requests whose success body is `{"acknowledged": <bool>, ...}`. */
  datatype AckRequest =
    | CreateIndex(name: string)
    | DeleteIndex(name: string)
    | AddAlias(indices: seq<string>, alias: string)
    | RemoveAlias(indices: seq<string>, alias: string)
    | AddPipeline(name: string)

  /** The context attached to a transport failure of each request. */
  function TransportDetails(req: AckRequest): string
  {
    match req
    case CreateIndex(name) => "cannot index document '" + name + "'"
    case DeleteIndex(name) => "cannot find index '" + name + "'"
    case AddAlias(indices, alias) =>
      "cannot add alias '" + alias + "' to indices '" + Join(indices, " ") + "'"
    case RemoveAlias(indices, alias) =>
      "cannot remove alias '" + alias + "' to indices '" + Join(indices, " ") + "'"
    case AddPipeline(name) => "cannot add pipeline '" + name + "'"
  }

  /** The error reported when the backend answers `acknowledged: false`. */
  function NotAcknowledgedError(req: AckRequest): Error
  {
    match req
    case CreateIndex(name) => NotCreated("index creation " + name)
    case DeleteIndex(_) => NotDeleted("Elasticsearch response to index deletion not acknowledged")
    case AddAlias(_, alias) => NotAcknowledged("alias " + alias + " creation")
    case RemoveAlias(_, alias) => NotAcknowledged("alias " + alias + " deletion")
    case AddPipeline(name) => NotAcknowledged("pipeline " + name + " creation")
  }

  /** The complaint about a non-boolean flag: index requests and the
      others word it differently. */
  function NotBoolDetails(req: AckRequest): string
  {
    if req.CreateIndex? || req.DeleteIndex? then "expected JSON bool" else "expected JSON boolean"
  }

  /** The backend accepted the request and said so. */
  predicate Acknowledged(resp: Response<JsonBody>)
  {
    && resp.Success?
    && resp.body.JsonValue?
    && resp.body.json.JObject?
    && "acknowledged" in resp.body.json.fields
    && resp.body.json.fields["acknowledged"] == JBool(true)
  }

  /** The success body has the expected shape: an object whose
      `acknowledged` entry is a boolean. */
  predicate WellShaped(j: Json)
  {
    j.JObject? && "acknowledged" in j.fields && j.fields["acknowledged"].JBool?
  }

  /** The acknowledged check of `create_index`, `delete_index`,
      `add_alias`, `remove_alias` and `add_pipeline`. */
  function CheckAcknowledged(req: AckRequest, resp: Response<JsonBody>): (r: Result<(), Error>)
    ensures r.Ok? <==> Acknowledged(resp)
    ensures resp.TransportFailure? ==>
              r == Err(ElasticsearchError(TransportDetails(req), resp.cause))
    ensures resp.FailureStatus? ==> r == Err(FromFailure(resp.exception))
    ensures resp.Success? && resp.body.NotJson? ==> r == Err(JsonDeserializationError(resp.body.source))
    ensures resp.Success? && resp.body.JsonValue? && !WellShaped(resp.body.json) ==>
              r.Err? && r.error.JsonDeserializationInvalid? && r.error.json == resp.body.json
    ensures resp.Success? && resp.body.JsonValue? && WellShaped(resp.body.json) && !r.Ok? ==>
              r == Err(NotAcknowledgedError(req))
  {
    match resp
    case TransportFailure(cause) => Err(ElasticsearchError(TransportDetails(req), cause))
    case FailureStatus(exception) => Err(FromFailure(exception))
    case Success(NotJson(source)) => Err(JsonDeserializationError(source))
    case Success(JsonValue(json)) =>
      if !json.JObject? then Err(JsonDeserializationInvalid("expected JSON object", json))
      else if "acknowledged" !in json.fields then Err(JsonDeserializationInvalid("expected 'acknowledged'", json))
      else if !json.fields["acknowledged"].JBool? then Err(JsonDeserializationInvalid(NotBoolDetails(req), json))
      else if json.fields["acknowledged"].b then Ok(())
      else Err(NotAcknowledgedError(req))
  }

  /** The shape errors, one per missing layer, in the order they are
      checked. */
  lemma ShapeErrors(req: AckRequest, json: Json)
    ensures var r := CheckAcknowledged(req, Success(JsonValue(json)));
      && (!json.JObject? ==> r == Err(JsonDeserializationInvalid("expected JSON object", json)))
      && (json.JObject? && "acknowledged" !in json.fields ==>
            r == Err(JsonDeserializationInvalid("expected 'acknowledged'", json)))
      && (json.JObject? && "acknowledged" in json.fields && !json.fields["acknowledged"].JBool? ==>
            r == Err(JsonDeserializationInvalid(NotBoolDetails(req), json)))
  {
  }

  /** `acknowledged: false` to a creation is "not created", to a deletion
      "not deleted", to the others "not acknowledged". */
  lemma RefusalKinds(req: AckRequest, fields: map<string, Json>)
    requires "acknowledged" in fields && fields["acknowledged"] == JBool(false)
    ensures var r := CheckAcknowledged(req, Success(JsonValue(JObject(fields))));
      && r.Err?
      && (req.CreateIndex? <==> r.error.NotCreated?)
      && (req.DeleteIndex? <==> r.error.NotDeleted?)
      && (req.CreateIndex? ==> r.error.details == "index creation " + req.name)
  {
  }

  /** The body `create_index` sends: the mappings and settings texts
      spliced into one JSON object. */
  function CreateBody(config: IndexConfiguration): string
  {
    "{ \"mappings\": " + config.mappings + ", \"settings\": " + config.settings + " }"
  }

  /** `create_index`: the spliced body is parsed first (`parseJson`); if it is
      not JSON no request is made, otherwise the creation response is checked
      for acknowledgement.  The result also says whether a request was made. */
  function CreateIndexRequest(config: IndexConfiguration, parseJson: string -> Result<Json, string>,
                              resp: Response<JsonBody>): (r: (bool, Result<(), Error>))
    ensures r.0 <==> parseJson(CreateBody(config)).Ok?
    ensures !r.0 ==> r.1 == Err(Json2DeserializationError(parseJson(CreateBody(config)).error,
                                                          "could not deserialize index configuration"))
    ensures r.0 ==> r.1 == CheckAcknowledged(CreateIndex(config.name), resp)
    ensures r.1.Ok? <==> r.0 && Acknowledged(resp)
  {
    match parseJson(CreateBody(config))
    case Err(err) => (false, Err(Json2DeserializationError(err, "could not deserialize index configuration")))
    case Ok(_) => (true, CheckAcknowledged(CreateIndex(config.name), resp))
  }

  /** `refresh_index`: any success status is enough; the body is not read. */
  function RefreshIndex(name: string, resp: Response<JsonBody>): (r: Result<(), Error>)
    ensures r.Ok? <==> resp.Success?
    ensures resp.TransportFailure? ==>
              r == Err(ElasticsearchError("cannot refresh index " + name, resp.cause))
    ensures resp.FailureStatus? ==> r == Err(FromFailure(resp.exception))
  {
    match resp
    case TransportFailure(cause) => Err(ElasticsearchError("cannot refresh index " + name, cause))
    case FailureStatus(exception) => Err(FromFailure(exception))
    case Success(_) => Ok(())
  }

  // ---------------------------------------------------------------------
  // From the CAT indices API to the domain index

  /** One record of the CAT indices API (`ElasticsearchIndex`). */
  datatype EsIndexRecord = EsIndexRecord(
    health: string,
    status: string,
    name: string,
    docsCount: Option<string>,
    docsDeleted: Option<string>,
    pri: string,
    priStoreSize: Option<string>,
    rep: string,
    storeSize: Option<string>,
    uuid: string)

  /** `IndexStatus::from`: whatever the backend says, the index counts as
      available. */
  function StatusFrom(status: string): (r: IndexStatus)
    ensures r == Available
  {
    match status
    case "green" => Available
    case "yellow" => Available
    case _ => Available
  }

  const U32Limit: nat := 0x1_0000_0000

  predicate IsDigit(c: char)
  {
    '0' <= c <= '9'
  }

  predicate AllDigits(s: string)
  {
    forall k :: 0 <= k < |s| ==> IsDigit(s[k])
  }

  /** The number a string of decimal digits denotes. */
  function DigitsValue(s: string): nat
    requires AllDigits(s)
  {
    if s == [] then 0
    else DigitsValue(s[..|s| - 1]) * 10 + (s[|s| - 1] as int - '0' as int)
  }

  /** `str::parse::<u32>`: an optional `+`, then at least one decimal digit,
      denoting a number below 2^32. */
  function ParseU32(s: string): (r: Option<nat>)
    ensures r.Some? ==> r.value < U32Limit
  {
    var digits := if |s| > 0 && s[0] == '+' then s[1..] else s;
    if |digits| == 0 || !AllDigits(digits) then None
    else if DigitsValue(digits) < U32Limit then Some(DigitsValue(digits))
    else None
  }

  lemma {:induction false} DigitsOfNatToString(n: nat)
    ensures AllDigits(NatToString(n))
    ensures DigitsValue(NatToString(n)) == n
    decreases n
  {
    var s := NatToString(n);
    if n >= 10 {
      DigitsOfNatToString(n / 10);
      assert s[..|s| - 1] == NatToString(n / 10);
    }
  }

  /** What the backend writes for a count below 2^32 parses back to it. */
  lemma {:induction false} ParseU32RoundTrip(n: nat)
    requires n < U32Limit
    ensures ParseU32(NatToString(n)) == Some(n)
  {
    DigitsOfNatToString(n);
  }

  /** An empty text, a lone `+` and a negative number are not counts. */
  lemma ParseU32Rejects(s: string)
    ensures s == [] ==> ParseU32(s) == None
    ensures s == "+" ==> ParseU32(s) == None
    ensures |s| > 0 && s[0] == '-' ==> ParseU32(s) == None
  {
  }

  /** `TryFrom<ElasticsearchIndex> for Index`. `split` is
      `configuration::split_index_name` (doc type, dataset), which is not
      part of this model. An unparsable document count panics. */
  function IndexFromRecord(rec: EsIndexRecord, split: string -> Result<(string, string), string>)
    : (r: Outcome<Index>)
    ensures split(rec.name).Err? ==>
              r == Failed(IndexConversion("could not convert elasticsearch index into model index: "
                                          + split(rec.name).error))
    ensures r.Done? <==> split(rec.name).Ok? && (rec.docsCount.None? || ParseU32(rec.docsCount.value).Some?)
    ensures r.Panicked? ==> r.message == "docs count"
    ensures r.Done? ==> && r.value.name == rec.name
                        && r.value.docType == split(rec.name).value.0
                        && r.value.dataset == split(rec.name).value.1
                        && r.value.status == Available
                        && r.value.docsCount < U32Limit
                        && (rec.docsCount.None? ==> r.value.docsCount == 0)
                        && (rec.docsCount.Some? ==> Some(r.value.docsCount) == ParseU32(rec.docsCount.value))
  {
    match split(rec.name)
    case Err(err) =>
      Failed(IndexConversion("could not convert elasticsearch index into model index: " + err))
    case Ok((docType, dataset)) =>
      match rec.docsCount
      case None => Done(Index(rec.name, dataset, docType, 0, StatusFrom(rec.status)))
      case Some(val) =>
        match ParseU32(val)
        case None => Panicked("docs count")
        case Some(n) => Done(Index(rec.name, dataset, docType, n, StatusFrom(rec.status)))
  }

  /** A record whose count the backend wrote in decimal converts to an index
      with that count. */
  lemma {:induction false} IndexFromRecordCount(rec: EsIndexRecord, split: string -> Result<(string, string), string>, n: nat)
    requires split(rec.name).Ok? && n < U32Limit && rec.docsCount == Some(NatToString(n))
    ensures IndexFromRecord(rec, split).Done?
    ensures IndexFromRecord(rec, split).value.docsCount == n
  {
    ParseU32RoundTrip(n);
  }

  /** `find_index`: one CAT indices request for `name`; `decode` is serde's
      reading of the body as a list of records. The LAST record decides. */
  function FindIndex(name: string, resp: Response<JsonBody>,
                     decode: Json -> Result<seq<EsIndexRecord>, string>,
                     split: string -> Result<(string, string), string>): (r: Outcome<Option<Index>>)
    ensures resp.TransportFailure? ==>
              r == Failed(ElasticsearchError("cannot find index '" + name + "'", resp.cause))
    ensures resp.FailureStatus? ==> r == Failed(FromFailure(resp.exception))
    ensures resp.Success? && resp.body.NotJson? ==> r == Failed(JsonDeserializationError(resp.body.source))
    ensures resp.Success? && resp.body.JsonValue? && decode(resp.body.json).Err? ==>
              r == Failed(Json2DeserializationError(decode(resp.body.json).error,
                                                    "could not deserialize Elasticsearch indices"))
    ensures r == Done(None) <==>
              resp.Success? && resp.body.JsonValue? && decode(resp.body.json) == Ok([])
    ensures resp.Success? && resp.body.JsonValue? && decode(resp.body.json).Ok? && decode(resp.body.json).value != [] ==>
              var recs := decode(resp.body.json).value;
              match IndexFromRecord(recs[|recs| - 1], split)
              case Done(index) => r == Done(Some(index))
              case Failed(e) => r == Failed(e)
              case Panicked(m) => r == Panicked(m)
  {
    match resp
    case TransportFailure(cause) => Failed(ElasticsearchError("cannot find index '" + name + "'", cause))
    case FailureStatus(exception) => Failed(FromFailure(exception))
    case Success(NotJson(source)) => Failed(JsonDeserializationError(source))
    case Success(JsonValue(json)) =>
      match decode(json)
      case Err(err) => Failed(Json2DeserializationError(err, "could not deserialize Elasticsearch indices"))
      case Ok(recs) =>
        if recs == [] then Done(None)
        else
          match IndexFromRecord(recs[|recs| - 1], split)
          case Done(index) => Done(Some(index))
          case Failed(e) => Failed(e)
          case Panicked(m) => Panicked(m)
  }

  // ---------------------------------------------------------------------
  // Aliases

  /** The order of Rust's `String`: byte-wise lexicographic over UTF-8,
      which is the order of the code points; a proper prefix comes first.
      It is the order in which a `BTreeMap` keyed by names yields them. */
  predicate NameLess(a: string, b: string)
    decreases |a|
  {
    if a == [] then b != []
    else b != [] && (a[0] < b[0] || (a[0] == b[0] && NameLess(a[1..], b[1..])))
  }

  lemma {:induction false} NameLessIrreflexive(a: string)
    ensures !NameLess(a, a)
    decreases |a|
  {
    if a != [] {
      NameLessIrreflexive(a[1..]);
    }
  }

  /** Two different names are ordered one way or the other. */
  lemma {:induction false} NameLessTotal(a: string, b: string)
    ensures a == b || NameLess(a, b) || NameLess(b, a)
    decreases |a|
  {
    if a != [] && b != [] && a[0] == b[0] {
      NameLessTotal(a[1..], b[1..]);
      assert a == [a[0]] + a[1..] && b == [b[0]] + b[1..];
    }
  }

  lemma {:induction false} NameLessTransitive(a: string, b: string, c: string)
    requires NameLess(a, b) && NameLess(b, c)
    ensures NameLess(a, c)
    decreases |a|
  {
    if a != [] && a[0] == b[0] && b[0] == c[0] {
      NameLessTransitive(a[1..], b[1..], c[1..]);
    }
  }

  /** A non-empty set of names has a least element. */
  lemma {:induction false} LeastName(names: set<string>) returns (m: string)
    requires names != {}
    ensures m in names && forall k :: k in names && k != m ==> NameLess(m, k)
    decreases |names|
  {
    var x :| x in names;
    var rest := names - {x};
    if rest == {} {
      m := x;
      assert forall k :: k in names && k != x ==> k in rest;
    } else {
      var least := LeastName(rest);
      NameLessTotal(x, least);
      if NameLess(x, least) {
        m := x;
        forall k | k in names && k != x
          ensures NameLess(x, k)
        {
          assert k in rest;
          if k != least {
            NameLessTransitive(x, least, k);
          }
        }
      } else {
        m := least;
        forall k | k in names && k != least
          ensures NameLess(least, k)
        {
          if k != x {
            assert k in rest;
          }
        }
      }
    }
  }

  /** `s` is strictly ascending. */
  ghost predicate NamesAscending(s: seq<string>)
  {
    forall i, j :: 0 <= i < j < |s| ==> NameLess(s[i], s[j])
  }

  /** The names of a set in the order a `BTreeMap` iterator yields them. */
  method SortedNames(names: set<string>) returns (s: seq<string>)
    ensures Enumerates(s, names) && NamesAscending(s)
  {
    s := [];
    var rest := names;
    while rest != {}
      invariant rest <= names
      invariant NamesAscending(s)
      invariant forall k :: k in names <==> k in s || k in rest
      invariant forall i, k :: 0 <= i < |s| && k in rest ==> NameLess(s[i], k)
      decreases |rest|
    {
      ghost var least := LeastName(rest);
      var k :| k in rest && forall k' :: k' in rest && k' != k ==> NameLess(k, k');
      s := s + [k];
      rest := rest - {k};
    }
    forall i, j | 0 <= i < j < |s|
      ensures s[i] != s[j]
    {
      NameLessIrreflexive(s[i]);
    }
  }

  /** The aliases of one entry of a get-alias response,
      `{"aliases": {"a1": {}, ...}}`, or None when the entry is not of that
      shape (where the source panics). */
  function AliasEntry(v: Json): (r: Option<set<string>>)
    ensures r.Some? <==> v.JObject? && "aliases" in v.fields && v.fields["aliases"].JObject?
  {
    if v.JObject? && "aliases" in v.fields && v.fields["aliases"].JObject?
    then Some(v.fields["aliases"].fields.Keys)
    else None
  }

  /** Every entry of a get-alias response has the expected shape. */
  predicate AllEntriesWellFormed(obj: map<string, Json>)
  {
    forall k :: k in obj ==> AliasEntry(obj[k]).Some?
  }

  /** The index-to-aliases map a well-formed response describes. */
  function AliasMap(obj: map<string, Json>): map<string, set<string>>
    requires AllEntriesWellFormed(obj)
  {
    map k | k in obj :: AliasEntry(obj[k]).value
  }

  /** The panic message of the first check an entry fails. */
  function EntryPanic(v: Json): string
  {
    if !v.JObject? then "aliases object"
    else if "aliases" !in v.fields then "no entry found for key"
    else "list of aliases"
  }

  /** `k` is the least key, in name order, whose entry is of the wrong
      shape. */
  ghost predicate FirstMalformed(obj: map<string, Json>, k: string)
  {
    && k in obj && AliasEntry(obj[k]).None?
    && forall j :: j in obj && AliasEntry(obj[j]).None? && j != k ==> NameLess(k, j)
  }

  /** At most one key is the first malformed one. */
  lemma FirstMalformedUnique(obj: map<string, Json>, k1: string, k2: string)
    requires FirstMalformed(obj, k1) && FirstMalformed(obj, k2)
    ensures k1 == k2
  {
    if k1 != k2 {
      NameLessTransitive(k1, k2, k1);
      NameLessIrreflexive(k1);
    }
  }

  /** `find_aliases`: asks for the aliases of every index matching
      `{base}_*` and builds the index-to-aliases map entry by entry, in
      ascending name order, as serde_json's `Map` yields them. The first
      entry of the wrong shape panics. */
  method FindAliases(base: string, resp: Response<JsonBody>) returns (r: Outcome<map<string, set<string>>>)
    ensures resp.TransportFailure? ==>
              r == Failed(ElasticsearchError("cannot find aliases to " + base + "_*", resp.cause))
    ensures resp.FailureStatus? ==> r == Failed(FromFailure(resp.exception))
    ensures resp.Success? && resp.body.NotJson? ==> r == Failed(JsonDeserializationError(resp.body.source))
    ensures resp.Success? && resp.body.JsonValue? && !resp.body.json.JObject? ==>
              r == Failed(JsonDeserializationInvalid("expected JSON object", resp.body.json))
    ensures r.Done? <==> resp.Success? && resp.body.JsonValue? && resp.body.json.JObject?
                         && AllEntriesWellFormed(resp.body.json.fields)
    ensures r.Done? ==> r.value == AliasMap(resp.body.json.fields)
    ensures r.Panicked? ==> && resp.Success? && resp.body.JsonValue? && resp.body.json.JObject?
                            && exists k :: FirstMalformed(resp.body.json.fields, k)
                                           && r.message == EntryPanic(resp.body.json.fields[k])
  {
    match resp {
      case TransportFailure(cause) =>
        return Failed(ElasticsearchError("cannot find aliases to " + base + "_*", cause));
      case FailureStatus(exception) =>
        return Failed(FromFailure(exception));
      case Success(NotJson(source)) =>
        return Failed(JsonDeserializationError(source));
      case Success(JsonValue(json)) =>
        if !json.JObject? {
          return Failed(JsonDeserializationInvalid("expected JSON object", json));
        }
        var obj := json.fields;
        var aliases: map<string, set<string>> := map[];
        var todo := obj.Keys;
        while todo != {}
          invariant todo <= obj.Keys
          invariant aliases.Keys == obj.Keys - todo
          invariant forall k :: k in aliases ==> AliasEntry(obj[k]) == Some(aliases[k])
          decreases |todo|
        {
          ghost var least := LeastName(todo);
          var key :| key in todo && forall k :: k in todo && k != key ==> NameLess(key, k);
          var entry := AliasEntry(obj[key]);
          if entry.None? {
            assert FirstMalformed(obj, key);
            return Panicked(EntryPanic(obj[key]));
          }
          aliases := aliases[key := entry.value];
          todo := todo - {key};
        }
        assert AllEntriesWellFormed(obj);
        return Done(aliases);
    }
  }

  /** What the backend answers to a get-alias request for `{base}_*` when
      its indices and their aliases are `indices`: one entry per index whose
      name starts with `base_`. */
  function AliasResponse(indices: map<string, set<string>>, base: string): (j: Json)
    ensures j.JObject? && AllEntriesWellFormed(j.fields)
    ensures AliasMap(j.fields) == map n | n in indices && StartsWith(n, base + "_") :: indices[n]
  {
    var entries := map n | n in indices && StartsWith(n, base + "_") ::
      JObject(map["aliases" := JObject(EmptyObjects(indices[n]))]);
    assert forall n :: n in entries ==> AliasEntry(entries[n]) == Some(indices[n]);
    JObject(entries)
  }

  /** `{"a1": {}, "a2": {}, ...}` for the aliases `names`. */
  function EmptyObjects(names: set<string>): (m: map<string, Json>)
    ensures m.Keys == names
  {
    map a | a in names :: JObject(map[])
  }

  /** `get_previous_indices`: the names of the indices matching
      `{base}_*`, where `base` is `root_doctype_dataset(doc_type, dataset)`,
      other than the index's own name, in ascending name order. */
  method GetPreviousIndices(index: Index, rootDoctypeDataset: (string, string) -> string, resp: Response<JsonBody>)
    returns (r: Outcome<seq<string>>)
    ensures var base := rootDoctypeDataset(index.docType, index.dataset);
      resp.TransportFailure? ==>
        r == Failed(ElasticsearchError("cannot find aliases to " + base + "_*", resp.cause))
    ensures resp.FailureStatus? ==> r == Failed(FromFailure(resp.exception))
    ensures r.Done? <==> resp.Success? && resp.body.JsonValue? && resp.body.json.JObject?
                         && AllEntriesWellFormed(resp.body.json.fields)
    ensures r.Done? ==> index.name !in r.value
    ensures r.Done? ==> && resp.Success? && resp.body.JsonValue? && resp.body.json.JObject?
                        && Enumerates(r.value, resp.body.json.fields.Keys - {index.name})
                        && NamesAscending(r.value)
    ensures r.Panicked? ==> && resp.Success? && resp.body.JsonValue? && resp.body.json.JObject?
                            && exists k :: FirstMalformed(resp.body.json.fields, k)
                                           && r.message == EntryPanic(resp.body.json.fields[k])
    ensures forall indices: map<string, set<string>> ::
              resp == Success(JsonValue(AliasResponse(indices, rootDoctypeDataset(index.docType, index.dataset)))) ==>
              r.Done? && Enumerates(r.value, set n | n in indices && StartsWith(n, rootDoctypeDataset(index.docType, index.dataset) + "_")
                                                     && n != index.name)
  {
    var base := rootDoctypeDataset(index.docType, index.dataset);
    var aliases := FindAliases(base, resp);
    match aliases {
      case Done(m) =>
        var names := SortedNames(set k | k in m && k != index.name);
        r := Done(names);
      case Failed(e) =>
        r := Failed(e);
      case Panicked(msg) =>
        r := Panicked(msg);
    }
    forall indices: map<string, set<string>> | resp == Success(JsonValue(AliasResponse(indices, base)))
      ensures r.Done? && Enumerates(r.value, set n | n in indices && StartsWith(n, base + "_") && n != index.name)
    {
      var fields := AliasResponse(indices, base).fields;
      var m := AliasMap(fields);
      assert m.Keys == set n | n in indices && StartsWith(n, base + "_");
      assert aliases == Done(m);
      assert (set k | k in m && k != index.name)
          == (set n | n in indices && StartsWith(n, base + "_") && n != index.name);
    }
  }
}
