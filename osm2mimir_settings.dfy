/**
 * The settings of osm2mimir: command-line arguments turned into
 * configuration keys (`Args::collect`), and the layering of `Settings::new`
 * (the default configuration, then the specific settings file, then the
 * arguments, each overriding the one before).
 *
 * A configuration is a flat map from dotted key to value, and merging a
 * layer overrides key by key. The file system is abstract: whether a path
 * exists, which file a name without extension resolves to, and what a file
 * reads as.
 */
module Osm2MimirSettings {
  import opened Common

  // ---------------------------------------------------------------------
  // Machine integers

  newtype u32 = x: int | 0 <= x < 0x1_0000_0000
  /** `usize` on a 64-bit target. */
  newtype usize = x: int | 0 <= x < 0x1_0000_0000_0000_0000

  const I64Max: int := 0x7fff_ffff_ffff_ffff

  /** The display of `TryFromIntError`. */
  const OutOfRange: string := "out of range integral type conversion attempted"

  /** `i64::try_from`, with the message `collect` gives on failure. */
  function ToI64(n: int, what: string): (r: Result<int, string>)
    requires 0 <= n
    ensures r.Ok? <==> n <= I64Max
    ensures r.Ok? ==> r.value == n
    ensures r.Err? ==> r.error == "Could not convert " + what + " to integer: " + OutOfRange
  {
    if n <= I64Max then Ok(n) else Err("Could not convert " + what + " to integer: " + OutOfRange)
  }

  /** A `u32` always fits an `i64`: the conversions of `city_level` and
      `level` cannot fail, so `level` never aborts on one element. */
  lemma U32Fits(x: u32, what: string)
    ensures ToI64(x as int, what) == Ok(x as int)
  {
  }

  /** The largest `usize` does not fit. */
  lemma UsizeMayNotFit(what: string)
    ensures ToI64(0xffff_ffff_ffff_ffff as usize as int, what).Err?
  {
  }

  // ---------------------------------------------------------------------
  // Arguments and configuration values

  /** A configuration value. */
  datatype Value = VString(s: string) | VBool(b: bool) | VInt(i: int) | VIntList(items: seq<int>)

  /** `Args` (with the database options of the `db-storage` build). */
  datatype Args = Args(
    input: string,
    level: Option<seq<u32>>,
    cityLevel: Option<u32>,
    connectionString: Option<string>,
    importWay: Option<bool>,
    importAdmin: Option<bool>,
    importPoi: Option<bool>,
    dataset: Option<string>,
    nbAdminShards: Option<usize>,
    nbAdminReplicas: Option<usize>,
    nbStreetShards: Option<usize>,
    nbStreetReplicas: Option<usize>,
    nbPoiShards: Option<usize>,
    nbPoiReplicas: Option<usize>,
    dbFile: Option<string>,
    dbBufferSize: Option<usize>,
    nbInsertThreads: Option<usize>,
    configDir: Option<string>,
    settings: Option<string>)

  /** The arguments `collect` turns into configuration keys. */
  datatype Field =
    | Dataset | ImportAdmin | CityLevel | Levels | ImportWay | ImportPoi | ConnectionString
    | StreetsShards | StreetsReplicas | PoisShards | PoisReplicas | AdminsShards | AdminsReplicas
    | InsertThreads | DbFile | DbBufferSize

  /** The order in which `collect` looks at them. */
  const FieldOrder: seq<Field> := [
    Dataset, ImportAdmin, CityLevel, Levels, ImportWay, ImportPoi, ConnectionString,
    StreetsShards, StreetsReplicas, PoisShards, PoisReplicas, AdminsShards, AdminsReplicas,
    InsertThreads, DbFile, DbBufferSize]

  /** Where an argument stands in the order. */
  function Position(f: Field): (r: nat)
    ensures r < |FieldOrder| && FieldOrder[r] == f
  {
    match f
    case Dataset => 0
    case ImportAdmin => 1
    case CityLevel => 2
    case Levels => 3
    case ImportWay => 4
    case ImportPoi => 5
    case ConnectionString => 6
    case StreetsShards => 7
    case StreetsReplicas => 8
    case PoisShards => 9
    case PoisReplicas => 10
    case AdminsShards => 11
    case AdminsReplicas => 12
    case InsertThreads => 13
    case DbFile => 14
    case DbBufferSize => 15
  }

  /** The configuration key of each argument. */
  function Key(f: Field): string
  {
    match f
    case Dataset => "dataset"
    case ImportAdmin => "admin.import"
    case CityLevel => "admin.city_level"
    case Levels => "admin.levels"
    case ImportWay => "street.import"
    case ImportPoi => "poi.import"
    case ConnectionString => "elasticsearch.connection_string"
    case StreetsShards => "elasticsearch.streets_shards"
    case StreetsReplicas => "elasticsearch.streets_replicas"
    case PoisShards => "elasticsearch.pois_shards"
    case PoisReplicas => "elasticsearch.pois_replicas"
    case AdminsShards => "elasticsearch.admins_shards"
    case AdminsReplicas => "elasticsearch.admins_replicas"
    case InsertThreads => "elasticsearch.insert_thread_count"
    case DbFile => "database.file"
    case DbBufferSize => "database.buffer_size"
  }

  /** The length of each key; only three pairs of keys share one. */
  lemma KeyLength(f: Field)
    ensures |Key(f)| ==
      match f
      case Dataset => 7
      case ImportAdmin => 12
      case CityLevel => 16
      case Levels => 12
      case ImportWay => 13
      case ImportPoi => 10
      case ConnectionString => 31
      case StreetsShards => 28
      case StreetsReplicas => 30
      case PoisShards => 25
      case PoisReplicas => 27
      case AdminsShards => 27
      case AdminsReplicas => 29
      case InsertThreads => 33
      case DbFile => 13
      case DbBufferSize => 20
  {
  }

  /** Different arguments have different keys. */
  lemma KeyInjective(f: Field, g: Field)
    ensures Key(f) == Key(g) <==> f == g
  {
    KeyLength(f);
    KeyLength(g);
  }

  /** The count an argument gives, for the `usize` arguments. */
  function Count(args: Args, f: Field): Option<usize>
  {
    match f
    case StreetsShards => args.nbStreetShards
    case StreetsReplicas => args.nbStreetReplicas
    case PoisShards => args.nbPoiShards
    case PoisReplicas => args.nbPoiReplicas
    case AdminsShards => args.nbAdminShards
    case AdminsReplicas => args.nbAdminReplicas
    case InsertThreads => args.nbInsertThreads
    case DbBufferSize => args.dbBufferSize
    case _ => None
  }

  /** What the conversion error of a count calls it. */
  function CountName(f: Field): string
  {
    match f
    case StreetsShards => "count of streets shards"
    case StreetsReplicas => "count of way replicas"
    case PoisShards => "count of poi shards"
    case PoisReplicas => "count of poi replicas"
    case AdminsShards => "count of admin shards"
    case AdminsReplicas => "count of admin replicas"
    case InsertThreads => "elasticsearch insert thread count"
    case DbBufferSize => "database buffer size"
    case _ => "admin city_level"
  }

  /** The list of admin levels as integers. */
  function LevelValues(levels: seq<u32>): (r: seq<int>)
    ensures |r| == |levels| && forall i :: 0 <= i < |levels| ==> r[i] == levels[i] as int
  {
    seq(|levels|, i requires 0 <= i < |levels| => levels[i] as int)
  }

  // ---------------------------------------------------------------------
  // Inserting contributions in turn

  /** A key and what is inserted under it: nothing, a value, or the error
      that stops the insertions. */
  type Contribution = (string, Option<Result<Value, string>>)

  /** A contribution that stops the insertions. */
  predicate Stops(c: Contribution)
  {
    c.1.Some? && c.1.value.Err?
  }

  /** One contribution inserted into `m`. */
  function Insert1(c: Contribution, m: map<string, Value>): Result<map<string, Value>, string>
  {
    match c.1
    case None => Ok(m)
    case Some(Err(e)) => Err(e)
    case Some(Ok(v)) => Ok(m[c.0 := v])
  }

  /** The first `k` contributions inserted in turn into an empty map; the
      first error stops it. */
  function InsertUpTo(cs: seq<Contribution>, k: nat): Result<map<string, Value>, string>
    requires k <= |cs|
  {
    if k == 0 then Ok(map[])
    else match InsertUpTo(cs, k - 1)
      case Err(e) => Err(e)
      case Ok(m) => Insert1(cs[k - 1], m)
  }

  /** Once stopped, the insertions stay stopped with the same error. */
  lemma {:induction false} StoppedStays(cs: seq<Contribution>, k: nat, n: nat)
    requires k <= n <= |cs| && InsertUpTo(cs, k).Err?
    ensures InsertUpTo(cs, n) == InsertUpTo(cs, k)
    decreases n - k
  {
    if k < n {
      StoppedStays(cs, k, n - 1);
    }
  }

  /** The insertions fail iff some contribution stops them. */
  lemma {:induction false} InsertOk(cs: seq<Contribution>, k: nat)
    requires k <= |cs|
    ensures InsertUpTo(cs, k).Ok? <==> forall i :: 0 <= i < k ==> !Stops(cs[i])
  {
    if k > 0 {
      InsertOk(cs, k - 1);
    }
  }

  /** Their error is that of the first contribution that stops them. */
  lemma {:induction false} InsertFirstError(cs: seq<Contribution>, k: nat, j: nat)
    requires j < k <= |cs| && Stops(cs[j])
    requires forall i :: 0 <= i < j ==> !Stops(cs[i])
    ensures InsertUpTo(cs, k) == Err(cs[j].1.value.error)
  {
    InsertOk(cs, j);
    StoppedStays(cs, j + 1, k);
  }

  /** On success with distinct keys, the value of each contribution is
      found under its key, and there is no other key. */
  lemma {:induction false} InsertContents(cs: seq<Contribution>, k: nat)
    requires k <= |cs| && InsertUpTo(cs, k).Ok?
    requires forall i, j :: 0 <= i < j < k ==> cs[i].0 != cs[j].0
    ensures var r := InsertUpTo(cs, k).value;
      && (forall i :: 0 <= i < k && cs[i].1.Some? ==> cs[i].0 in r && cs[i].1 == Some(Ok(r[cs[i].0])))
      && (forall key :: key in r <==> exists i :: 0 <= i < k && cs[i].0 == key && cs[i].1.Some?)
  {
    if k > 0 {
      InsertContents(cs, k - 1);
      var r := InsertUpTo(cs, k).value;
      forall key | key in r
        ensures exists i :: 0 <= i < k && cs[i].0 == key && cs[i].1.Some?
      {
        if key !in InsertUpTo(cs, k - 1).value {
          assert cs[k - 1].0 == key && cs[k - 1].1.Some?;
        }
      }
    }
  }

  // ---------------------------------------------------------------------
  // `Args::collect`

  /** A value given as a string. */
  function StringEntry(o: Option<string>): Option<Result<Value, string>>
  {
    if o.Some? then Some(Ok(VString(o.value))) else None
  }

  /** A value given as a boolean. */
  function BoolEntry(o: Option<bool>): Option<Result<Value, string>>
  {
    if o.Some? then Some(Ok(VBool(o.value))) else None
  }

  /** A value given as a `u32`, which always fits an `i64`. */
  function LevelEntry(o: Option<u32>): Option<Result<Value, string>>
  {
    if o.Some? then Some(Ok(VInt(o.value as int))) else None
  }

  /** A list of `u32`, each of which fits an `i64`. */
  function LevelsEntry(o: Option<seq<u32>>): Option<Result<Value, string>>
  {
    if o.Some? then Some(Ok(VIntList(LevelValues(o.value)))) else None
  }

  /** A count: nothing when it is absent, else the count as an `i64`, or
      the conversion error naming it. */
  function CountEntry(count: Option<usize>, name: string): Option<Result<Value, string>>
  {
    if count.Some? then
      Some(match ToI64(count.value as int, name)
           case Ok(i) => Ok(VInt(i))
           case Err(e) => Err(e))
    else None
  }

  /** What an argument contributes. */
  function Entry(args: Args, f: Field): Option<Result<Value, string>>
  {
    match f
    case Dataset => StringEntry(args.dataset)
    case ImportAdmin => BoolEntry(args.importAdmin)
    case CityLevel => LevelEntry(args.cityLevel)
    case Levels => LevelsEntry(args.level)
    case ImportWay => BoolEntry(args.importWay)
    case ImportPoi => BoolEntry(args.importPoi)
    case ConnectionString => StringEntry(args.connectionString)
    case DbFile => StringEntry(args.dbFile)
    case _ => CountEntry(Count(args, f), CountName(f))
  }

  /** What the arguments contribute, with their keys, in the order `collect`
      looks at them. */
  function Contributions(args: Args): (cs: seq<Contribution>)
    ensures |cs| == |FieldOrder|
  {
    [("dataset", StringEntry(args.dataset)),
     ("admin.import", BoolEntry(args.importAdmin)),
     ("admin.city_level", LevelEntry(args.cityLevel)),
     ("admin.levels", LevelsEntry(args.level)),
     ("street.import", BoolEntry(args.importWay)),
     ("poi.import", BoolEntry(args.importPoi)),
     ("elasticsearch.connection_string", StringEntry(args.connectionString)),
     ("elasticsearch.streets_shards", CountEntry(args.nbStreetShards, "count of streets shards")),
     ("elasticsearch.streets_replicas", CountEntry(args.nbStreetReplicas, "count of way replicas")),
     ("elasticsearch.pois_shards", CountEntry(args.nbPoiShards, "count of poi shards")),
     ("elasticsearch.pois_replicas", CountEntry(args.nbPoiReplicas, "count of poi replicas")),
     ("elasticsearch.admins_shards", CountEntry(args.nbAdminShards, "count of admin shards")),
     ("elasticsearch.admins_replicas", CountEntry(args.nbAdminReplicas, "count of admin replicas")),
     ("elasticsearch.insert_thread_count", CountEntry(args.nbInsertThreads, "elasticsearch insert thread count")),
     ("database.file", StringEntry(args.dbFile)),
     ("database.buffer_size", CountEntry(args.dbBufferSize, "database buffer size"))]
  }

  /** The table lists each argument at its position, under its key. */
  lemma ContributionAt(args: Args, f: Field)
    ensures Contributions(args)[Position(f)] == (Key(f), Entry(args, f))
  {
  }

  /** What `collect` gives. */
  function Collected(args: Args): Result<map<string, Value>, string>
  {
    InsertUpTo(Contributions(args), |FieldOrder|)
  }

  /** The keys along the table are distinct. */
  lemma ContributionKeysDistinct(args: Args)
    ensures forall i, j :: 0 <= i < j < |FieldOrder| ==> Contributions(args)[i].0 != Contributions(args)[j].0
  {
    forall i, j | 0 <= i < j < |FieldOrder|
      ensures Contributions(args)[i].0 != Contributions(args)[j].0
    {
      ContributionAt(args, FieldOrder[i]);
      ContributionAt(args, FieldOrder[j]);
      KeyInjective(FieldOrder[i], FieldOrder[j]);
      OrderPositions(i);
      OrderPositions(j);
    }
  }

  /** Each position of the order holds the argument placed there. */
  lemma OrderPositions(i: nat)
    requires i < |FieldOrder|
    ensures Position(FieldOrder[i]) == i
  {
  }

  /** An argument stops `collect` iff it is a count too large for an
      `i64`. */
  lemma StopsIffTooLarge(args: Args, f: Field)
    ensures Stops(Contributions(args)[Position(f)]) <==> Count(args, f).Some? && Count(args, f).value as int > I64Max
  {
    ContributionAt(args, f);
  }

  /** What `collect` gives: a key for each argument given, with its value,
      and no other key; or, when some count is too large for an `i64`, an
      error. */
  lemma CollectedMeaning(args: Args)
    ensures Collected(args).Ok? <==>
      forall f: Field :: Count(args, f).Some? ==> Count(args, f).value as int <= I64Max
    ensures Collected(args).Ok? ==>
      && (forall f: Field :: Key(f) in Collected(args).value <==> Entry(args, f).Some?)
      && (forall f: Field :: Entry(args, f).Some? ==> Entry(args, f) == Some(Ok(Collected(args).value[Key(f)])))
      && (forall key :: key in Collected(args).value ==> exists f: Field :: Key(f) == key)
  {
    var cs := Contributions(args);
    InsertOk(cs, |cs|);
    forall f: Field
      ensures Stops(cs[Position(f)]) <==> Count(args, f).Some? && Count(args, f).value as int > I64Max
    {
      StopsIffTooLarge(args, f);
    }
    if Collected(args).Ok? {
      ContributionKeysDistinct(args);
      InsertContents(cs, |cs|);
      var r := Collected(args).value;
      forall f: Field
        ensures Key(f) in r <==> Entry(args, f).Some?
        ensures Entry(args, f).Some? ==> Entry(args, f) == Some(Ok(r[Key(f)]))
      {
        ContributionAt(args, f);
        if Key(f) in r {
          var i :| 0 <= i < |cs| && cs[i].0 == Key(f) && cs[i].1.Some?;
          ContributionAt(args, FieldOrder[i]);
          OrderPositions(i);
          KeyInjective(FieldOrder[i], f);
        }
      }
      forall key | key in r
        ensures exists f: Field :: Key(f) == key
      {
        var i :| 0 <= i < |cs| && cs[i].0 == key && cs[i].1.Some?;
        ContributionAt(args, FieldOrder[i]);
        OrderPositions(i);
      }
    } else {
      var j :| 0 <= j < |cs| && Stops(cs[j]);
      OrderPositions(j);
      StopsIffTooLarge(args, FieldOrder[j]);
    }
  }

  /** When some count is too large, `collect` reports the first in the
      order, under the name of that count. */
  lemma CollectedError(args: Args, f: Field)
    requires Count(args, f).Some? && Count(args, f).value as int > I64Max
    requires forall g: Field :: Position(g) < Position(f) && Count(args, g).Some? ==> Count(args, g).value as int <= I64Max
    ensures Collected(args) == Err("Could not convert " + CountName(f) + " to integer: " + OutOfRange)
  {
    var cs := Contributions(args);
    forall i | 0 <= i < Position(f)
      ensures !Stops(cs[i])
    {
      OrderPositions(i);
      StopsIffTooLarge(args, FieldOrder[i]);
    }
    StopsIffTooLarge(args, f);
    ContributionAt(args, f);
    InsertFirstError(cs, |cs|, Position(f));
  }

  /** `Args::collect`: each argument given adds its key, in the order of
      the table; a count too large for an `i64` stops it with an error. */
  method Collect(args: Args) returns (r: Result<map<string, Value>, string>)
    ensures r == Collected(args)
  {
    var m: map<string, Value> := map[];
    // The dataset.
    if args.dataset.Some? {
      m := m["dataset" := VString(args.dataset.value)];
    }
    m := CollectAdmin(args, m);
    m := CollectWayPoi(args, m);
    r := CollectSearchStreets(args, m);
    if r.Err? {
      StoppedStays(Contributions(args), 9, |FieldOrder|);
      return;
    }
    r := CollectSearchPois(args, r.value);
    if r.Err? {
      StoppedStays(Contributions(args), 11, |FieldOrder|);
      return;
    }
    r := CollectSearchAdmins(args, r.value);
    if r.Err? {
      StoppedStays(Contributions(args), 14, |FieldOrder|);
      return;
    }
    r := CollectDatabase(args, r.value);
  }

  /** The administrative regions. */
  method CollectAdmin(args: Args, m: map<string, Value>) returns (m': map<string, Value>)
    requires InsertUpTo(Contributions(args), 1) == Ok(m)
    ensures InsertUpTo(Contributions(args), 4) == Ok(m')
  {
    ghost var cs := Contributions(args);
    m' := m;
    if args.importAdmin.Some? {
      m' := m'["admin.import" := VBool(args.importAdmin.value)];
    }
    assert InsertUpTo(cs, 2) == Ok(m');
    if args.cityLevel.Some? {
      m' := m'["admin.city_level" := VInt(args.cityLevel.value as int)];
    }
    assert InsertUpTo(cs, 3) == Ok(m');
    if args.level.Some? {
      var levels := CollectLevels(args.level.value);
      m' := m'["admin.levels" := VIntList(levels)];
    }
  }

  /** The streets and the points of interest. */
  method CollectWayPoi(args: Args, m: map<string, Value>) returns (m': map<string, Value>)
    requires InsertUpTo(Contributions(args), 4) == Ok(m)
    ensures InsertUpTo(Contributions(args), 6) == Ok(m')
  {
    ghost var cs := Contributions(args);
    m' := m;
    if args.importWay.Some? {
      m' := m'["street.import" := VBool(args.importWay.value)];
    }
    assert InsertUpTo(cs, 5) == Ok(m');
    if args.importPoi.Some? {
      m' := m'["poi.import" := VBool(args.importPoi.value)];
    }
  }

  /** Elasticsearch: the connection, and the shards and replicas of the
      street index. */
  method CollectSearchStreets(args: Args, m: map<string, Value>) returns (r: Result<map<string, Value>, string>)
    requires InsertUpTo(Contributions(args), 6) == Ok(m)
    ensures r == InsertUpTo(Contributions(args), 9)
  {
    ghost var cs := Contributions(args);
    var m' := m;
    if args.connectionString.Some? {
      m' := m'["elasticsearch.connection_string" := VString(args.connectionString.value)];
    }
    assert InsertUpTo(cs, 7) == Ok(m');
    if args.nbStreetShards.Some? {
      var i := ToI64(args.nbStreetShards.value as int, "count of streets shards");
      if i.Err? {
        StoppedStays(cs, 8, 9);
        return Err(i.error);
      }
      m' := m'["elasticsearch.streets_shards" := VInt(i.value)];
    }
    assert InsertUpTo(cs, 8) == Ok(m');
    if args.nbStreetReplicas.Some? {
      var i := ToI64(args.nbStreetReplicas.value as int, "count of way replicas");
      if i.Err? {
        return Err(i.error);
      }
      m' := m'["elasticsearch.streets_replicas" := VInt(i.value)];
    }
    return Ok(m');
  }

  /** Elasticsearch: the shards and replicas of the point-of-interest
      index. */
  method CollectSearchPois(args: Args, m: map<string, Value>) returns (r: Result<map<string, Value>, string>)
    requires InsertUpTo(Contributions(args), 9) == Ok(m)
    ensures r == InsertUpTo(Contributions(args), 11)
  {
    ghost var cs := Contributions(args);
    var m' := m;
    if args.nbPoiShards.Some? {
      var i := ToI64(args.nbPoiShards.value as int, "count of poi shards");
      if i.Err? {
        StoppedStays(cs, 10, 11);
        return Err(i.error);
      }
      m' := m'["elasticsearch.pois_shards" := VInt(i.value)];
    }
    assert InsertUpTo(cs, 10) == Ok(m');
    if args.nbPoiReplicas.Some? {
      var i := ToI64(args.nbPoiReplicas.value as int, "count of poi replicas");
      if i.Err? {
        return Err(i.error);
      }
      m' := m'["elasticsearch.pois_replicas" := VInt(i.value)];
    }
    return Ok(m');
  }

  /** Elasticsearch: the shards and replicas of the administrative index,
      and the number of insertion threads. */
  method CollectSearchAdmins(args: Args, m: map<string, Value>) returns (r: Result<map<string, Value>, string>)
    requires InsertUpTo(Contributions(args), 11) == Ok(m)
    ensures r == InsertUpTo(Contributions(args), 14)
  {
    ghost var cs := Contributions(args);
    var m' := m;
    if args.nbAdminShards.Some? {
      var i := ToI64(args.nbAdminShards.value as int, "count of admin shards");
      if i.Err? {
        StoppedStays(cs, 12, 14);
        return Err(i.error);
      }
      m' := m'["elasticsearch.admins_shards" := VInt(i.value)];
    }
    assert InsertUpTo(cs, 12) == Ok(m');
    if args.nbAdminReplicas.Some? {
      var i := ToI64(args.nbAdminReplicas.value as int, "count of admin replicas");
      if i.Err? {
        StoppedStays(cs, 13, 14);
        return Err(i.error);
      }
      m' := m'["elasticsearch.admins_replicas" := VInt(i.value)];
    }
    assert InsertUpTo(cs, 13) == Ok(m');
    if args.nbInsertThreads.Some? {
      var i := ToI64(args.nbInsertThreads.value as int, "elasticsearch insert thread count");
      if i.Err? {
        return Err(i.error);
      }
      m' := m'["elasticsearch.insert_thread_count" := VInt(i.value)];
    }
    return Ok(m');
  }

  /** The database. */
  method CollectDatabase(args: Args, m: map<string, Value>) returns (r: Result<map<string, Value>, string>)
    requires InsertUpTo(Contributions(args), 14) == Ok(m)
    ensures r == InsertUpTo(Contributions(args), 16)
  {
    ghost var cs := Contributions(args);
    var m' := m;
    if args.dbFile.Some? {
      m' := m'["database.file" := VString(args.dbFile.value)];
    }
    assert InsertUpTo(cs, 15) == Ok(m');
    if args.dbBufferSize.Some? {
      var i := ToI64(args.dbBufferSize.value as int, "database buffer size");
      if i.Err? {
        return Err(i.error);
      }
      m' := m'["database.buffer_size" := VInt(i.value)];
    }
    return Ok(m');
  }

  /** The `try_fold` over `level`: each level converted and pushed in
      turn. */
  method CollectLevels(levels: seq<u32>) returns (acc: seq<int>)
    ensures acc == LevelValues(levels)
  {
    acc := [];
    for i := 0 to |levels|
      invariant acc == LevelValues(levels[..i])
    {
      assert levels[..i + 1] == levels[..i] + [levels[i]];
      acc := acc + [levels[i] as int];
    }
    assert levels[..|levels|] == levels;
  }

  // ---------------------------------------------------------------------
  // `Settings::new`

  /** A configuration: dotted keys and their values. */
  type Config = map<string, Value>

  /** `Config::merge` of one more layer: its keys override those already
      there. */
  function Merge(base: Config, layer: Config): (r: Config)
    ensures forall key :: key in r <==> key in base || key in layer
    ensures forall key :: key in layer ==> r[key] == layer[key]
    ensures forall key :: key in base && key !in layer ==> r[key] == base[key]
    ensures base == map[] ==> r == layer
    ensures layer == map[] ==> r == base
  {
    base + layer
  }

  /** The file system, as far as `Settings::new` sees it: whether a path
      exists, which file `File::with_name` finds for a name (it tries the
      supported extensions), and what a file holds, or why it cannot be
      read or parsed. */
  datatype FileSystem = FileSystem(
    pathExists: string -> bool,
    resolve: string -> Option<string>,
    read: string -> Result<Config, string>)

  /** A Unix path that starts at the root. */
  predicate IsAbsolute(path: string)
  {
    |path| > 0 && path[0] == '/'
  }

  /** `PathBuf::push` on Unix: an absolute name replaces the whole path;
      otherwise the name is appended, with a `/` between only when the
      path is non-empty and does not already end with one. */
  function Push(dir: string, name: string): (r: string)
    ensures |name| <= |r| && r[|r| - |name|..] == name
    ensures IsAbsolute(name) ==> r == name
    ensures !IsAbsolute(name) ==> |r| > |dir| ==> r[..|dir|] == dir
  {
    if IsAbsolute(name) then name
    else if dir == "" || dir[|dir| - 1] == '/' then dir + name
    else dir + "/" + name
  }

  /** A trailing separator on the directory changes nothing. */
  lemma PushTrailingSlash(dir: string, name: string)
    requires dir != "" && dir[|dir| - 1] != '/'
    ensures Push(dir + "/", name) == Push(dir, name)
  {
    assert (dir + "/")[|dir + "/"| - 1] == '/';
    assert dir + "/" + name == (dir + "/") + name;
  }

  /** Pushing onto an empty path gives the name itself. */
  lemma PushOntoEmpty(name: string)
    ensures Push("", name) == name
  {
    assert "" + name == name;
  }

  /** With `--config-dir config/` the default file is looked up as
      `config/osm2mimir-default`, and `--settings /etc/acme` names
      `/etc/acme` whatever the directory. */
  lemma PushExamples()
    ensures Push("config/", DefaultName) == "config/osm2mimir-default"
    ensures Push("config", DefaultName) == "config/osm2mimir-default"
    ensures Push("config", "/etc/acme") == "/etc/acme"
  {
    PushTrailingSlash("config", DefaultName);
  }

  const DefaultName: string := "osm2mimir-default"

  /** The error of `File::with_name` when no file has the name. */
  function NotFound(path: string): string
  {
    "configuration file \"" + path + "\" not found"
  }

  /** `File::with_name(path)` merged into a configuration: the contents of
      the file found for the name. */
  function WithName(fs: FileSystem, path: string): (r: Result<Config, string>)
    ensures fs.resolve(path).None? ==> r == Err(NotFound(path))
    ensures fs.resolve(path).Some? ==> r == fs.read(fs.resolve(path).value)
  {
    match fs.resolve(path)
    case None => Err(NotFound(path))
    case Some(file) => fs.read(file)
  }

  /** How the default file in the configuration directory is looked for:
      as written, whether the path without extension exists; as intended,
      whether `File::with_name` finds a file for it. */
  datatype Probe = ExistsProbe | ResolveProbe

  function Present(fs: FileSystem, path: string, probe: Probe): bool
  {
    match probe
    case ExistsProbe => fs.pathExists(path)
    case ResolveProbe => fs.resolve(path).Some?
  }

  /** The errors of `Settings::new`, one per layer that can fail. */
  function DefaultError(path: string, e: string): string
  {
    "Could not merge default configuration from file " + path + ": " + e
  }

  function BuiltinError(e: string): string
  {
    "Could not merge default configuration from file at compile time: " + e
  }

  function SpecificError(name: string, path: string, e: string): string
  {
    "Could not merge " + name + " configuration in file " + path + ": " + e
  }

  function ArgumentsError(e: string): string
  {
    "Could not merge arguments into configuration: " + e
  }

  function FreezeError(e: string): string
  {
    "Could not generate settings from configuration: " + e
  }

  const NoDirError: string := "Could not build program settings"

  /** The default layer: with a configuration directory, its default file
      when it is present, else the compiled-in default; without one, the
      compiled-in default. */
  function DefaultLayer(configDir: Option<string>, fs: FileSystem, builtin: Result<Config, string>, probe: Probe)
    : Result<Config, string>
  {
    match configDir
    case Some(dir) =>
      var path := Push(dir, DefaultName);
      var loaded := if Present(fs, path, probe) then WithName(fs, path) else builtin;
      if loaded.Err? then Err(DefaultError(path, loaded.error))
      else loaded
    case None =>
      if builtin.Err? then Err(BuiltinError(builtin.error))
      else builtin
  }

  /** The specific layer: the named settings file of the configuration
      directory, which must exist; nothing without a name. */
  function SpecificLayer(configDir: Option<string>, settings: Option<string>, fs: FileSystem): Result<Config, string>
  {
    if configDir.None? || settings.None? then Ok(map[])
    else
      var path := Push(configDir.value, settings.value);
      var loaded := WithName(fs, path);
      if loaded.Err? then Err(SpecificError(settings.value, path, loaded.error))
      else loaded
  }

  /** The configuration files' part of `Settings::new`: the default layer
      under the specific layer; the first error stops it, and a specific
      settings name without a configuration directory is an error. */
  function FileLayers(configDir: Option<string>, settings: Option<string>, fs: FileSystem,
                      builtin: Result<Config, string>, probe: Probe): Result<Config, string>
  {
    if configDir.None? && settings.Some? then Err(NoDirError)
    else
      var d := DefaultLayer(configDir, fs, builtin, probe);
      var sp := SpecificLayer(configDir, settings, fs);
      if d.Err? then Err(d.error)
      else if sp.Err? then Err(sp.error)
      else Ok(Merge(d.value, sp.value))
  }

  /** The configuration `Settings::new` freezes: the file layers with the
      arguments on top. */
  function Layered(args: Args, fs: FileSystem, builtin: Result<Config, string>, probe: Probe): Result<Config, string>
  {
    var f := FileLayers(args.configDir, args.settings, fs, builtin, probe);
    var a := Collected(args);
    if f.Err? then f
    else if a.Err? then Err(ArgumentsError(a.error))
    else Ok(Merge(f.value, a.value))
  }

  /** What `Settings::new` gives: the layered configuration deserialised by
      `freeze`. */
  function SettingsOf<T>(args: Args, fs: FileSystem, builtin: Result<Config, string>, probe: Probe,
                         freeze: Config -> Result<T, string>): Result<T, string>
  {
    match Layered(args, fs, builtin, probe)
    case Err(e) => Err(e)
    case Ok(c) =>
      match freeze(c)
      case Err(e) => Err(FreezeError(e))
      case Ok(v) => Ok(v)
  }

  /** The default layer of `Settings::new`, merged into an empty
      configuration. */
  method LoadDefault(configDir: Option<string>, fs: FileSystem, builtin: Result<Config, string>, probe: Probe)
    returns (r: Result<Config, string>)
    ensures r == DefaultLayer(configDir, fs, builtin, probe)
  {
    var config: Config := map[];
    if configDir.Some? {
      var path := Push(configDir.value, DefaultName);
      if Present(fs, path, probe) {
        var loaded := WithName(fs, path);
        if loaded.Err? {
          return Err(DefaultError(path, loaded.error));
        }
        config := Merge(config, loaded.value);
      } else {
        if builtin.Err? {
          return Err(DefaultError(path, builtin.error));
        }
        config := Merge(config, builtin.value);
      }
    } else {
      if builtin.Err? {
        return Err(BuiltinError(builtin.error));
      }
      config := Merge(config, builtin.value);
    }
    return Ok(config);
  }

  /** The file part of `Settings::new`: the default layer, then the
      specific settings file merged over it. */
  method LoadFiles(configDir: Option<string>, settings: Option<string>, fs: FileSystem,
                   builtin: Result<Config, string>, probe: Probe)
    returns (r: Result<Config, string>)
    ensures r == FileLayers(configDir, settings, fs, builtin, probe)
  {
    if configDir.None? && settings.Some? {
      return Err(NoDirError);
    }
    var config := LoadDefault(configDir, fs, builtin, probe);
    if config.Err? {
      return config;
    }
    if configDir.Some? && settings.Some? {
      var specific := Push(configDir.value, settings.value);
      var loaded := WithName(fs, specific);
      if loaded.Err? {
        return Err(SpecificError(settings.value, specific, loaded.error));
      }
      return Ok(Merge(config.value, loaded.value));
    }
    return config;
  }

  /** `Settings::new`: the file layers, then the arguments, merged into one
      configuration, which is then deserialised. */
  method SettingsNew<T>(args: Args, fs: FileSystem, builtin: Result<Config, string>, probe: Probe,
                        freeze: Config -> Result<T, string>)
    returns (r: Result<T, string>)
    ensures r == SettingsOf(args, fs, builtin, probe, freeze)
  {
    var files := LoadFiles(args.configDir, args.settings, fs, builtin, probe);
    if files.Err? {
      return Err(files.error);
    }
    var collected := Collect(args);
    if collected.Err? {
      return Err(ArgumentsError(collected.error));
    }
    var config := Merge(files.value, collected.value);
    var frozen := freeze(config);
    if frozen.Err? {
      return Err(FreezeError(frozen.error));
    }
    return Ok(frozen.value);
  }

  // ---------------------------------------------------------------------
  // What `Settings::new` promises

  /** A settings name needs a configuration directory to be looked up in. */
  lemma SettingsNeedDirectory<T>(args: Args, fs: FileSystem, builtin: Result<Config, string>, probe: Probe,
                                 freeze: Config -> Result<T, string>)
    requires args.configDir.None? && args.settings.Some?
    ensures SettingsOf(args, fs, builtin, probe, freeze) == Err(NoDirError)
  {
  }

  /** The layering succeeds exactly when both files merge and every count
      given on the command line converts to a 64-bit integer. */
  lemma LayeredOk(args: Args, fs: FileSystem, builtin: Result<Config, string>, probe: Probe)
    ensures Layered(args, fs, builtin, probe).Ok? <==>
      && FileLayers(args.configDir, args.settings, fs, builtin, probe).Ok?
      && forall f: Field :: Count(args, f).Some? ==> Count(args, f).value as int <= I64Max
  {
    CollectedMeaning(args);
  }

  /** Precedence of the layers: every option given on the command line wins;
      a key no option sets keeps the specific file's value, and failing
      that the default layer's. */
  lemma LayerPrecedence(args: Args, fs: FileSystem, builtin: Result<Config, string>, probe: Probe)
    requires Layered(args, fs, builtin, probe).Ok?
    ensures forall f: Field :: Entry(args, f).Some? ==>
      && Key(f) in Layered(args, fs, builtin, probe).value
      && Entry(args, f) == Some(Ok(Layered(args, fs, builtin, probe).value[Key(f)]))
    ensures forall key :: (forall f: Field :: Key(f) == key ==> Entry(args, f).None?) ==>
      var c := Layered(args, fs, builtin, probe).value;
      var d := DefaultLayer(args.configDir, fs, builtin, probe).value;
      var sp := SpecificLayer(args.configDir, args.settings, fs).value;
      && (key in c <==> key in d || key in sp)
      && (key in sp ==> c[key] == sp[key])
      && (key in d && key !in sp ==> c[key] == d[key])
  {
    CollectedMeaning(args);
  }

  /** As written, the default file is looked for under its name without
      extension, so a directory holding `osm2mimir-default.toml` only ever
      gives the compiled-in default. */
  lemma DefaultIgnoredAsWritten(dir: string, fs: FileSystem, builtin: Result<Config, string>)
    requires !fs.pathExists(Push(dir, DefaultName)) && builtin.Ok?
    ensures DefaultLayer(Some(dir), fs, builtin, ExistsProbe) == builtin
  {
  }

  /** A directory `c` whose `osm2mimir-default.toml` sets `a`: as written
      that file is ignored; as intended it is the default layer. */
  lemma DefaultFileIgnored()
    ensures var file := Push("c", DefaultName) + ".toml";
      var found := map["a" := VBool(true)];
      var fs := FileSystem(
        p => p == file,
        p => if p == Push("c", DefaultName) then Some(file) else None,
        p => if p == file then Ok(found) else Err(""));
      var builtin := Ok(map[]);
      && DefaultLayer(Some("c"), fs, builtin, ExistsProbe) == Ok(map[])
      && DefaultLayer(Some("c"), fs, builtin, ResolveProbe) == Ok(found)
  {
    var file := Push("c", DefaultName) + ".toml";
    assert |file| == |Push("c", DefaultName)| + 5;
  }

  /** As intended, the default file is read whenever `File::with_name` finds
      one for the name, and the compiled-in default is used otherwise. */
  lemma DefaultReadWhenFound(dir: string, fs: FileSystem, builtin: Result<Config, string>)
    ensures var path := Push(dir, DefaultName);
      var layer := DefaultLayer(Some(dir), fs, builtin, ResolveProbe);
      && (fs.resolve(path).Some? && fs.read(fs.resolve(path).value).Ok? ==>
            layer == fs.read(fs.resolve(path).value))
      && (fs.resolve(path).Some? && fs.read(fs.resolve(path).value).Err? ==>
            layer == Err(DefaultError(path, fs.read(fs.resolve(path).value).error)))
      && (fs.resolve(path).None? ==>
            layer == if builtin.Ok? then builtin else Err(DefaultError(path, builtin.error)))
  {
  }
}
