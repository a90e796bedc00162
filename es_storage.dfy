/**
 * The storage port as the Elasticsearch adapter implements it.
 *
 * `create_container` reads the configuration, creates the index, then looks
 * it up again to return its details; every failure on the way is reported
 * as a container creation error. The result records which backend requests
 * were made, in order.
 *
 * The file also carries a publication procedure that is commented out in
 * the source (an alias swap). It is modelled here as a sketch: a state
 * machine over the backend's alias table, `alias -> set of indices`, where
 * each request's checked outcome is given by an oracle.
 */
module EsStorage {
  import opened Common
  import opened EsModel
  import opened EsClassify
  import opened EsIndex

  // ---------------------------------------------------------------------
  // create_container

  /** What serde and the index-name helper do, as functions: reading the
      configuration text, reading the spliced creation body as JSON,
      reading a CAT indices answer, and `configuration::split_index_name`. */
  datatype Codecs = Codecs(
    parseConfig: string -> Result<IndexConfiguration, string>,
    parseJson: string -> Result<Json, string>,
    decodeIndices: Json -> Result<seq<EsIndexRecord>, string>,
    splitIndexName: string -> Result<(string, string), string>)

  /** A backend request `create_container` makes. */
  datatype Call = CreateCall(name: string) | FindCall(name: string)

  /** The result of `create_container`: the index found after creation, a
      storage error, or a panic inside `find_index`. */
  datatype Creation =
    | Created(index: Index)
    | CreationFailed(error: StorageError)
    | CreationPanicked(message: string)

  /** The requests made and the result. */
  datatype CreationRun = CreationRun(calls: seq<Call>, result: Creation)

  /** `Storage::create_container`: `createResp` and `findResp` are the
      backend's answers to the creation request and to the lookup that
      follows it. */
  function CreateContainer(config: string, codecs: Codecs,
                           createResp: Response<JsonBody>, findResp: Response<JsonBody>): CreationRun
  {
    match ConfigFromText(config, codecs.parseConfig)
    case Err(e) => CreationRun([], CreationFailed(ContainerCreationError(e)))
    case Ok(conf) =>
      var name := conf.name;
      var create := CreateIndexRequest(conf, codecs.parseJson, createResp);
      var sent := if create.0 then [CreateCall(name)] else [];
      match create.1
      case Err(e) => CreationRun(sent, CreationFailed(ContainerCreationError(e)))
      case Ok(_) =>
        var calls := sent + [FindCall(name)];
        match FindIndex(name, findResp, codecs.decodeIndices, codecs.splitIndexName)
        case Done(Some(index)) => CreationRun(calls, Created(index))
        case Done(None) => CreationRun(calls, CreationFailed(ContainerCreationError(ElasticsearchUnknownIndex(name))))
        case Failed(e) => CreationRun(calls, CreationFailed(ContainerCreationError(e)))
        case Panicked(m) => CreationRun(calls, CreationPanicked(m))
  }

  /** A configuration that does not parse is reported as a container
      creation error, before any request is made. */
  lemma ParseFailureFirst(config: string, codecs: Codecs,
                          createResp: Response<JsonBody>, findResp: Response<JsonBody>)
    requires codecs.parseConfig(config).Err?
    ensures var run := CreateContainer(config, codecs, createResp, findResp);
      && run.calls == []
      && run.result.CreationFailed?
      && run.result.error.ContainerCreationError?
      && run.result.error.source.InvalidConfiguration?
  {
  }

  /** Creation succeeds exactly when the configuration and the body parse,
      the backend acknowledges the creation, and the lookup that follows
      finds an index; the result is that index, and both requests were
      made, creation first. */
  lemma CreatedIsFound(config: string, codecs: Codecs,
                       createResp: Response<JsonBody>, findResp: Response<JsonBody>)
    ensures var run := CreateContainer(config, codecs, createResp, findResp);
      run.result.Created? <==>
        && codecs.parseConfig(config).Ok?
        && var conf := codecs.parseConfig(config).value;
           && codecs.parseJson(CreateBody(conf)).Ok?
           && Acknowledged(createResp)
           && var found := FindIndex(conf.name, findResp, codecs.decodeIndices, codecs.splitIndexName);
              found.Done? && found.value.Some?
    ensures var run := CreateContainer(config, codecs, createResp, findResp);
      run.result.Created? ==>
        var conf := codecs.parseConfig(config).value;
        && run.calls == [CreateCall(conf.name), FindCall(conf.name)]
        && Done(Some(run.result.index))
           == FindIndex(conf.name, findResp, codecs.decodeIndices, codecs.splitIndexName)
  {
  }

  /** A creation the backend acknowledges, followed by a lookup that finds
      nothing, is reported as an unknown index under the configured name. */
  lemma CreatedButNotFound(config: string, codecs: Codecs,
                           createResp: Response<JsonBody>, findResp: Response<JsonBody>)
    requires codecs.parseConfig(config).Ok?
    requires codecs.parseJson(CreateBody(codecs.parseConfig(config).value)).Ok?
    requires Acknowledged(createResp)
    requires FindIndex(codecs.parseConfig(config).value.name, findResp, codecs.decodeIndices, codecs.splitIndexName)
             == Done(None)
    ensures CreateContainer(config, codecs, createResp, findResp).result
            == CreationFailed(ContainerCreationError(ElasticsearchUnknownIndex(codecs.parseConfig(config).value.name)))
  {
  }

  const ContainerCreationHeader: string := "Container Creation Error"

  /** Every failure, of whichever step, is a container creation error, and
      its message says so first. */
  lemma FailuresAreCreationErrors(config: string, codecs: Codecs,
                                  createResp: Response<JsonBody>, findResp: Response<JsonBody>)
    ensures var r := CreateContainer(config, codecs, createResp, findResp).result;
      r.CreationFailed? ==>
        && r.error.ContainerCreationError?
        && StartsWith(StorageDisplay(r.error), ContainerCreationHeader)
  {
    var r := CreateContainer(config, codecs, createResp, findResp).result;
    if r.CreationFailed? {
      assert r.error.ContainerCreationError?;
      var d := StorageDisplay(r.error);
      assert d == ContainerCreationHeader + ": " + Display(r.error.source);
      assert d[..|ContainerCreationHeader|] == ContainerCreationHeader;
    }
  }

  /** The backend's refusal to create an index that already exists. */
  function AlreadyExistsAnswer(name: string, uuid: string, reason: Option<string>): Response<JsonBody>
  {
    FailureStatus(Some(Exception([RootCause(Some("index [" + name + "/" + uuid + "] already exists"))], reason)))
  }

  /** A creation the backend refuses stops there: the refusal, classified,
      is the creation error, and no lookup is made. */
  lemma CreationRefused(config: string, codecs: Codecs, exception: Option<Exception>,
                        findResp: Response<JsonBody>)
    requires codecs.parseConfig(config).Ok?
    requires codecs.parseJson(CreateBody(codecs.parseConfig(config).value)).Ok?
    ensures var name := codecs.parseConfig(config).value.name;
      CreateContainer(config, codecs, FailureStatus(exception), findResp)
      == CreationRun([CreateCall(name)], CreationFailed(ContainerCreationError(FromFailure(exception))))
  {
  }

  const DuplicateHeader: string := "Elasticsearch Duplicate Index"

  /** The message of a duplicate index, wrapped as a creation error. */
  lemma DuplicateDisplay(name: string)
    ensures Contains(StorageDisplay(ContainerCreationError(ElasticsearchDuplicateIndex(name))), DuplicateHeader)
  {
    assert StorageDisplay(ContainerCreationError(ElasticsearchDuplicateIndex(name)))
           == "Container Creation Error: " + DuplicateHeader + (": " + name);
    ContainsConcat("Container Creation Error: ", DuplicateHeader, ": " + name);
  }

  /** Creating an index a second time: the backend answers that it already
      exists, and the result is a creation error whose message contains
      "Elasticsearch Duplicate Index" (the adapter's own test). No lookup is
      made. */
  lemma DuplicateCreation(config: string, codecs: Codecs, uuid: string, reason: Option<string>,
                          findResp: Response<JsonBody>)
    requires codecs.parseConfig(config).Ok?
    requires codecs.parseJson(CreateBody(codecs.parseConfig(config).value)).Ok?
    requires var name := codecs.parseConfig(config).value.name;
      |name| > 0 && forall k :: 0 <= k < |name| ==> NameChar(name[k])
    requires forall k :: 0 <= k < |uuid| ==> uuid[k] != '\n'
    ensures var name := codecs.parseConfig(config).value.name;
      var run := CreateContainer(config, codecs, AlreadyExistsAnswer(name, uuid, reason), findResp);
      && run.calls == [CreateCall(name)]
      && run.result == CreationFailed(ContainerCreationError(ElasticsearchDuplicateIndex(name)))
      && Contains(StorageDisplay(run.result.error), DuplicateHeader)
  {
    var name := codecs.parseConfig(config).value.name;
    var message := "index [" + name + "/" + uuid + "] already exists";
    var exception := Exception([RootCause(Some(message))], reason);
    DuplicateIndexMessage(name, uuid);
    assert FromFailure(Some(exception)) == ElasticsearchDuplicateIndex(name);
    CreationRefused(config, codecs, Some(exception), findResp);
    DuplicateDisplay(name);
  }

  // ---------------------------------------------------------------------
  // The publication sketch (commented out in the source)

  /** A request of the publication procedure. */
  datatype AliasCall =
    | RefreshCall(name: string)
    | RemoveAliasCall(indices: set<string>, alias: string)
    | AddAliasCall(indices: set<string>, alias: string)

  /** The indices an alias points to. */
  function Members(aliases: map<string, set<string>>, alias: string): set<string>
  {
    if alias in aliases then aliases[alias] else {}
  }

  /** What a request the backend accepted does to the alias table. */
  function Effect(aliases: map<string, set<string>>, call: AliasCall): (r: map<string, set<string>>)
    ensures call.RefreshCall? ==> r == aliases
    ensures !call.RefreshCall? ==> forall a :: a != call.alias ==> Members(r, a) == Members(aliases, a)
  {
    match call
    case RefreshCall(_) => aliases
    case RemoveAliasCall(ix, a) => aliases[a := Members(aliases, a) - ix]
    case AddAliasCall(ix, a) => aliases[a := Members(aliases, a) + ix]
  }

  /** Running requests in order until the first refusal. */
  datatype Run = Run(made: seq<AliasCall>, aliases: map<string, set<string>>, result: Result<(), Error>)

  function RunCalls(calls: seq<AliasCall>, aliases: map<string, set<string>>,
                    answer: AliasCall -> Result<(), Error>): (r: Run)
    ensures |r.made| <= |calls| && r.made == calls[..|r.made|]
    ensures r.result.Ok? <==> forall i :: 0 <= i < |calls| ==> answer(calls[i]).Ok?
    ensures r.result.Ok? ==> r.made == calls
    ensures r.result.Err? ==> |r.made| > 0 && r.result == answer(r.made[|r.made| - 1])
    decreases |calls|
  {
    if calls == [] then Run([], aliases, Ok(()))
    else
      match answer(calls[0])
      case Err(e) => Run([calls[0]], aliases, Err(e))
      case Ok(_) =>
        var rest := RunCalls(calls[1..], Effect(aliases, calls[0]), answer);
        assert calls == [calls[0]] + calls[1..];
        Run([calls[0]] + rest.made, rest.aliases, rest.result)
  }

  /** Moving `alias` onto `name`: taken off the previous indices if there
      are any, then put on the new one. */
  function Swap(previous: set<string>, name: string, alias: string): seq<AliasCall>
  {
    (if previous != {} then [RemoveAliasCall(previous, alias)] else []) + [AddAliasCall({name}, alias)]
  }

  datatype Publication =
    | Published
    | PublishFailed(error: StorageError)
    | PublishPanicked(message: string)

  datatype PublishRun = PublishRun(made: seq<AliasCall>, aliases: map<string, set<string>>, result: Publication)

  /** `publish_container` (sketch): refresh the index, look up the previous
      indices (`previous`, what `get_previous_indices` answers), move the
      dataset alias onto the index and, for a public index only, the
      document-type alias too. `rootDoctypeDataset` and `rootDoctype` are
      the configuration helpers of the same names. Every failure is an
      index publication error. */
  function Publish(index: Index, visibility: IndexVisibility, previous: Outcome<set<string>>,
                   rootDoctypeDataset: (string, string) -> string, rootDoctype: string -> string,
                   answer: AliasCall -> Result<(), Error>, aliases: map<string, set<string>>): PublishRun
  {
    var refresh := RefreshCall(index.name);
    match answer(refresh)
    case Err(e) => PublishRun([refresh], aliases, PublishFailed(IndexPublicationError(e)))
    case Ok(_) =>
      match previous
      case Failed(e) => PublishRun([refresh], aliases, PublishFailed(IndexPublicationError(e)))
      case Panicked(m) => PublishRun([refresh], aliases, PublishPanicked(m))
      case Done(prev) =>
        var first := RunCalls(Swap(prev, index.name, rootDoctypeDataset(index.docType, index.dataset)), aliases, answer);
        var made := [refresh] + first.made;
        if first.result.Err? then PublishRun(made, first.aliases, PublishFailed(IndexPublicationError(first.result.error)))
        else if visibility != Public then PublishRun(made, first.aliases, Published)
        else
          var second := RunCalls(Swap(prev, index.name, rootDoctype(index.docType)), first.aliases, answer);
          PublishRun(made + second.made, second.aliases,
                     if second.result.Ok? then Published else PublishFailed(IndexPublicationError(second.result.error)))
  }

  /** The refresh is always the first request, and every failure is an
      index publication error. */
  lemma RefreshFirst(index: Index, visibility: IndexVisibility, previous: Outcome<set<string>>,
                     rootDoctypeDataset: (string, string) -> string, rootDoctype: string -> string,
                     answer: AliasCall -> Result<(), Error>, aliases: map<string, set<string>>)
    ensures var p := Publish(index, visibility, previous, rootDoctypeDataset, rootDoctype, answer, aliases);
      && |p.made| >= 1 && p.made[0] == RefreshCall(index.name)
      && (p.result.PublishFailed? ==> p.result.error.IndexPublicationError?)
      && (|p.made| > 1 ==> answer(RefreshCall(index.name)).Ok? && previous.Done?)
  {
  }

  /** The requests of a successful publication: the refresh, the dataset
      alias swap, and the document-type alias swap for a public index
      only. */
  lemma PublishedRequests(index: Index, visibility: IndexVisibility, previous: Outcome<set<string>>,
                          rootDoctypeDataset: (string, string) -> string, rootDoctype: string -> string,
                          answer: AliasCall -> Result<(), Error>, aliases: map<string, set<string>>)
    requires Publish(index, visibility, previous, rootDoctypeDataset, rootDoctype, answer, aliases).result.Published?
    ensures previous.Done?
    ensures Publish(index, visibility, previous, rootDoctypeDataset, rootDoctype, answer, aliases).made
            == [RefreshCall(index.name)]
               + Swap(previous.value, index.name, rootDoctypeDataset(index.docType, index.dataset))
               + (if visibility == Public then Swap(previous.value, index.name, rootDoctype(index.docType)) else [])
  {
  }

  /** An alias is taken off indices only when there are previous indices,
      it is taken off exactly those, and it is immediately followed by
      putting the same alias on the new index. */
  lemma RemoveOnlyPrevious(prev: set<string>, name: string, alias: string)
    ensures var plan := Swap(prev, name, alias);
      && plan[|plan| - 1] == AddAliasCall({name}, alias)
      && forall i :: 0 <= i < |plan| && plan[i].RemoveAliasCall? ==>
           && prev != {}
           && plan[i] == RemoveAliasCall(prev, alias)
           && i + 1 < |plan|
           && plan[i + 1] == AddAliasCall({name}, alias)
  {
  }

  /** Running one swap to completion moves the alias: afterwards it points
      to the new index and to whatever it pointed to that is not a previous
      index; the other aliases are untouched. */
  lemma SwapEffect(previous: set<string>, name: string, alias: string,
                   aliases: map<string, set<string>>, answer: AliasCall -> Result<(), Error>)
    requires RunCalls(Swap(previous, name, alias), aliases, answer).result.Ok?
    ensures var r := RunCalls(Swap(previous, name, alias), aliases, answer).aliases;
      && Members(r, alias) == (Members(aliases, alias) - previous) + {name}
      && forall a :: a != alias ==> Members(r, a) == Members(aliases, a)
  {
    var calls := Swap(previous, name, alias);
    var add := AddAliasCall({name}, alias);
    if previous != {} {
      var rm := RemoveAliasCall(previous, alias);
      assert calls == [rm, add];
      assert answer(calls[0]).Ok? && answer(calls[1]).Ok?;
      var mid := Effect(aliases, rm);
      assert calls[1..] == [add];
      assert [add][1..] == [];
      assert RunCalls(calls, aliases, answer).aliases == RunCalls([add], mid, answer).aliases;
      assert RunCalls([add], mid, answer).aliases == Effect(mid, add);
    } else {
      assert calls == [add];
      assert answer(calls[0]).Ok?;
      assert [add][1..] == [];
      assert RunCalls(calls, aliases, answer).aliases == Effect(aliases, add);
      assert Members(aliases, alias) - previous == Members(aliases, alias);
    }
  }

  /** A successful publication of an index: the dataset alias points to
      the new index plus whatever it pointed to that was not a previous
      index; the document-type alias is moved the same way when the index
      is public and left alone otherwise; no other alias changes. */
  lemma PublishedAliases(index: Index, visibility: IndexVisibility, previous: Outcome<set<string>>,
                         rootDoctypeDataset: (string, string) -> string, rootDoctype: string -> string,
                         answer: AliasCall -> Result<(), Error>, aliases: map<string, set<string>>)
    requires Publish(index, visibility, previous, rootDoctypeDataset, rootDoctype, answer, aliases).result.Published?
    ensures previous.Done?
    ensures var r := Publish(index, visibility, previous, rootDoctypeDataset, rootDoctype, answer, aliases).aliases;
      var dataset := rootDoctypeDataset(index.docType, index.dataset);
      var doctype := rootDoctype(index.docType);
      && Members(r, dataset) == (Members(aliases, dataset) - previous.value) + {index.name}
      && (visibility == Public ==> Members(r, doctype) == (Members(aliases, doctype) - previous.value) + {index.name})
      && (visibility == Private && doctype != dataset ==> Members(r, doctype) == Members(aliases, doctype))
      && forall a :: a != dataset && a != doctype ==> Members(r, a) == Members(aliases, a)
  {
    var prev := previous.value;
    var dataset := rootDoctypeDataset(index.docType, index.dataset);
    var doctype := rootDoctype(index.docType);
    var first := RunCalls(Swap(prev, index.name, dataset), aliases, answer);
    SwapEffect(prev, index.name, dataset, aliases, answer);
    if visibility == Public {
      SwapEffect(prev, index.name, doctype, first.aliases, answer);
    }
  }

  /** Publishing the same index again, with the same previous indices and
      every request accepted, leaves the alias table as it is. */
  lemma PublishIdempotent(index: Index, visibility: IndexVisibility, prev: set<string>,
                          rootDoctypeDataset: (string, string) -> string, rootDoctype: string -> string,
                          answer: AliasCall -> Result<(), Error>, aliases: map<string, set<string>>)
    requires Publish(index, visibility, Done(prev), rootDoctypeDataset, rootDoctype, answer, aliases).result.Published?
    ensures var once := Publish(index, visibility, Done(prev), rootDoctypeDataset, rootDoctype, answer, aliases).aliases;
      var twice := Publish(index, visibility, Done(prev), rootDoctypeDataset, rootDoctype, answer, once);
      && twice.result.Published?
      && forall a :: Members(twice.aliases, a) == Members(once, a)
  {
    var once := Publish(index, visibility, Done(prev), rootDoctypeDataset, rootDoctype, answer, aliases).aliases;
    var dataset := rootDoctypeDataset(index.docType, index.dataset);
    var doctype := rootDoctype(index.docType);
    var first := RunCalls(Swap(prev, index.name, dataset), aliases, answer);
    var again := RunCalls(Swap(prev, index.name, dataset), once, answer);
    assert first.result.Ok?;
    assert again.result.Ok?;
    if visibility == Public {
      assert RunCalls(Swap(prev, index.name, doctype), first.aliases, answer).result.Ok?;
      assert RunCalls(Swap(prev, index.name, doctype), again.aliases, answer).result.Ok?;
    }
    PublishedAliases(index, visibility, Done(prev), rootDoctypeDataset, rootDoctype, answer, aliases);
    PublishedAliases(index, visibility, Done(prev), rootDoctypeDataset, rootDoctype, answer, once);
  }
}
