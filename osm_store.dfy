/**
 * The store of OSM objects used while reading a PBF file.
 *
 * `DB` is a write buffer (a hash map from OSM id to object) in front of a
 * table of rows keyed by `(id, kind)`, where the key is unique and rows are
 * written with "insert or ignore". The table is modelled as a map from that
 * key to the object (serialization is the identity), and the hash map's
 * unspecified iteration order as an arbitrary choice of the next key.
 * `ObjWrapper` chooses between a plain in-memory map and such a `DB`.
 */
module OsmStore {
  import opened Common

  /** The three kinds of OSM object. */
  datatype Kind = Node | Way | Relation

  /** The code a kind is stored under in the table's `kind` column. */
  function KindCode(k: Kind): (code: int)
    ensures 0 <= code <= 2
  {
    match k
    case Node => 0
    case Way => 1
    case Relation => 2
  }

  /** Each code stands for one kind. */
  lemma KindCodeInjective(a: Kind, b: Kind)
    ensures KindCode(a) == KindCode(b) <==> a == b
  {
  }

  /** An OSM id: the kind it names and the number within that kind. */
  datatype OsmId = OsmId(kind: Kind, inner: int)

  /** An OSM object: its kind, its own id number, and its content. */
  datatype OsmObj = OsmObj(kind: Kind, ident: int, tags: seq<(string, string)>)

  /** The table's unique key, `(id, kind)`. */
  type RowKey = (int, int)

  /** The key a lookup of `id` asks for: the id's number and ITS kind. */
  function LookupKey(id: OsmId): RowKey
  {
    (id.inner, KindCode(id.kind))
  }

  /** The row a buffered entry is written to: the id's number and the kind
      of the OBJECT. */
  function RowOf(id: OsmId, obj: OsmObj): RowKey
  {
    (id.inner, KindCode(obj.kind))
  }

  /** Every row's kind column is its object's kind. */
  ghost predicate RowsConsistent(table: map<RowKey, OsmObj>)
  {
    forall r :: r in table ==> r.1 == KindCode(table[r].kind)
  }

  /** Every buffered object has the kind its id names. */
  ghost predicate KindsMatch(buffer: map<OsmId, OsmObj>)
  {
    forall id :: id in buffer ==> buffer[id].kind == id.kind
  }

  /** What `get_from_id` answers on a buffer and a table: the buffered
      object if there is one, else the row for the id and its kind. */
  function Lookup(buffer: map<OsmId, OsmObj>, table: map<RowKey, OsmObj>, id: OsmId): (r: Option<OsmObj>)
    ensures r.Some? <==> id in buffer || LookupKey(id) in table
    ensures id in buffer ==> r == Some(buffer[id])
    ensures id !in buffer && LookupKey(id) in table ==> r == Some(table[LookupKey(id)])
  {
    if id in buffer then Some(buffer[id])
    else if LookupKey(id) in table then Some(table[LookupKey(id)])
    else None
  }

  /** What a flush does to the table: `after` keeps every row of `before`
      unchanged, has a row for every entry of `buffer`, and each row it adds
      holds an object of `buffer` written to that row. Which one, when two
      buffered entries go to the same row, depends on the drain order. */
  ghost predicate FlushedInto(before: map<RowKey, OsmObj>, buffer: map<OsmId, OsmObj>, after: map<RowKey, OsmObj>)
  {
    && (forall r :: r in before ==> r in after && after[r] == before[r])
    && (forall id :: id in buffer ==> RowOf(id, buffer[id]) in after)
    && (forall r :: r in after && r !in before ==>
          exists id :: id in buffer && RowOf(id, buffer[id]) == r && after[r] == buffer[id])
  }

  /** A flush keeps the table's kind column right. */
  lemma FlushedConsistent(before: map<RowKey, OsmObj>, buffer: map<OsmId, OsmObj>, after: map<RowKey, OsmObj>)
    requires RowsConsistent(before) && FlushedInto(before, buffer, after)
    ensures RowsConsistent(after)
  {
    forall r | r in after
      ensures r.1 == KindCode(after[r].kind)
    {
      if r !in before {
        var id :| id in buffer && RowOf(id, buffer[id]) == r && after[r] == buffer[id];
      }
    }
  }

  /** When every buffered object has the kind of its id and none of them
      has a row already, flushing changes no lookup. Without the first
      condition an object is written under a key its lookups never ask for;
      without the second, the older row wins over the buffered object. */
  lemma FlushKeepsLookups(before: map<RowKey, OsmObj>, buffer: map<OsmId, OsmObj>, after: map<RowKey, OsmObj>)
    requires FlushedInto(before, buffer, after)
    requires KindsMatch(buffer)
    requires forall id :: id in buffer ==> LookupKey(id) !in before
    ensures forall id :: Lookup(map[], after, id) == Lookup(buffer, before, id)
  {
    forall id
      ensures Lookup(map[], after, id) == Lookup(buffer, before, id)
    {
      var k := LookupKey(id);
      if id in buffer {
        assert RowOf(id, buffer[id]) == k;
        if k !in before {
          var other :| other in buffer && RowOf(other, buffer[other]) == k && after[k] == buffer[other];
          KindCodeInjective(other.kind, id.kind);
          assert other == id;
        }
      } else if k in after && k !in before {
        var other :| other in buffer && RowOf(other, buffer[other]) == k && after[k] == buffer[other];
        KindCodeInjective(other.kind, id.kind);
        assert false;
      }
    }
  }

  /** The same id inserted again after its first copy reached the table:
      the second copy is visible while buffered and lost at the next flush. */
  lemma SecondCopyLostAtFlush()
    ensures var id := OsmId(Node, 7);
      var first := OsmObj(Node, 7, [("name", "old")]);
      var second := OsmObj(Node, 7, [("name", "new")]);
      var before := map[LookupKey(id) := first];
      var buffer := map[id := second];
      && Lookup(buffer, before, id) == Some(second)
      && forall after :: FlushedInto(before, buffer, after) ==> Lookup(map[], after, id) == Some(first)
  {
  }

  /** Writing one more buffered entry with insert-or-ignore. */
  lemma FlushStep(before: map<RowKey, OsmObj>, done: map<OsmId, OsmObj>, table: map<RowKey, OsmObj>,
                  id: OsmId, obj: OsmObj)
    requires FlushedInto(before, done, table) && id !in done
    ensures var row := RowOf(id, obj);
      FlushedInto(before, done[id := obj], if row in table then table else table[row := obj])
  {
    var row := RowOf(id, obj);
    var after := if row in table then table else table[row := obj];
    var d := done[id := obj];
    forall r | r in after && r !in before
      ensures exists i :: i in d && RowOf(i, d[i]) == r && after[r] == d[i]
    {
      if r == row && row !in table {
        assert RowOf(id, d[id]) == r && after[r] == d[id];
      } else {
        var i :| i in done && RowOf(i, done[i]) == r && table[r] == done[i];
        assert RowOf(i, d[i]) == r && after[r] == d[i];
      }
    }
  }

  /** The larger of the buffer size and one: a buffer of size zero still
      holds the object just inserted. */
  function BufferBound(size: nat): (b: nat)
    ensures b >= 1 && b >= size && (b == size || b == 1)
  {
    if size >= 1 then size else 1
  }

  /** `DB`: the write buffer and the table behind it. */
  class DB {
    var buffer: map<OsmId, OsmObj>
    var table: map<RowKey, OsmObj>
    const bufferSize: nat

    ghost predicate Valid()
      reads this
    {
      |buffer| <= BufferBound(bufferSize) && RowsConsistent(table)
    }

    /** `DB::new`: an empty buffer and a freshly created, empty table. */
    constructor (bufferSize: nat)
      ensures Valid()
      ensures buffer == map[] && table == map[] && this.bufferSize == bufferSize
    {
      this.bufferSize := bufferSize;
      buffer := map[];
      table := map[];
    }

    /** `get_from_id`. */
    function GetFromId(id: OsmId): (r: Option<OsmObj>)
      reads this
      ensures r.Some? <==> ContainsKey(id)
    {
      Lookup(buffer, table, id)
    }

    /** `contains_key`: buffered, or a row under the id and its kind. */
    predicate ContainsKey(id: OsmId)
      reads this
    {
      id in buffer || LookupKey(id) in table
    }

    /** `flush_buffer`: drains the buffer, in any order, into the table
      with insert-or-ignore. */
    method FlushBuffer()
      requires Valid()
      modifies this
      ensures Valid()
      ensures buffer == map[]
      ensures FlushedInto(old(table), old(buffer), table)
      ensures old(buffer) == map[] ==> table == old(table)
    {
      if buffer == map[] {
        return;
      }
      var rows := Drain(table, buffer);
      FlushedConsistent(table, buffer, rows);
      buffer := map[];
      table := rows;
    }

    /** `insert`: flushes first when the buffer is full, then buffers the
      object, replacing any buffered object under the same id. */
    method Insert(id: OsmId, obj: OsmObj)
      requires Valid()
      modifies this
      ensures Valid()
      ensures |buffer| <= BufferBound(bufferSize)
      ensures |old(buffer)| >= bufferSize ==> FlushedInto(old(table), old(buffer), table) && buffer == map[id := obj]
      ensures |old(buffer)| < bufferSize ==> table == old(table) && buffer == old(buffer)[id := obj]
      ensures ContainsKey(id) && GetFromId(id) == Some(obj)
    {
      if |buffer| >= bufferSize {
        FlushBuffer();
      }
      buffer := buffer[id := obj];
    }

    /** `for_each`: every buffered object, then every row. The orders are
      returned: `ids` lists the buffer's keys and `rows` the table's keys,
      each once. */
    method ForEach() returns (ids: seq<OsmId>, rows: seq<RowKey>, visited: seq<OsmObj>)
      ensures Enumerates(ids, buffer.Keys) && Enumerates(rows, table.Keys)
      ensures |visited| == |ids| + |rows|
      ensures forall i :: 0 <= i < |ids| ==> visited[i] == buffer[ids[i]]
      ensures forall i :: 0 <= i < |rows| ==> visited[|ids| + i] == table[rows[i]]
    {
      ids := KeysOf(buffer);
      var fromBuffer := Gather(buffer, ids);
      rows := KeysOf(table);
      var fromTable := Gather(table, rows);
      visited := fromBuffer + fromTable;
    }

    /** `for_each_filter`: the buffered objects of kind `filter`, then the
      rows whose kind column is its code; every object visited has that
      kind. */
    method ForEachFilter(filter: Kind) returns (ids: seq<OsmId>, rows: seq<RowKey>, visited: seq<OsmObj>)
      requires Valid()
      ensures Distinct(ids) && forall id :: id in ids <==> id in buffer && buffer[id].kind == filter
      ensures Distinct(rows) && forall r :: r in rows <==> r in table && r.1 == KindCode(filter)
      ensures |visited| == |ids| + |rows|
      ensures forall i :: 0 <= i < |ids| ==> visited[i] == buffer[ids[i]]
      ensures forall i :: 0 <= i < |rows| ==> visited[|ids| + i] == table[rows[i]]
      ensures forall i :: 0 <= i < |visited| ==> visited[i].kind == filter
    {
      ids := IdsOfKind(buffer, filter);
      var fromBuffer := Gather(buffer, ids);
      rows := RowsOfKind(table, filter);
      var fromTable := Gather(table, rows);
      visited := fromBuffer + fromTable;
      forall i | 0 <= i < |visited|
        ensures visited[i].kind == filter
      {
        if i >= |ids| {
          var r := rows[i - |ids|];
          KindCodeInjective(table[r].kind, filter);
        }
      }
    }
  }

  /** The loop of `flush_buffer`: every entry of `buffer`, taken in an
      unspecified order, written into `table` unless its row exists. */
  method Drain(table: map<RowKey, OsmObj>, buffer: map<OsmId, OsmObj>) returns (rows: map<RowKey, OsmObj>)
    ensures FlushedInto(table, buffer, rows)
  {
    var pending := buffer;
    rows := table;
    ghost var done: map<OsmId, OsmObj> := map[];
    while pending != map[]
      invariant forall id :: id in buffer <==> id in pending || id in done
      invariant forall id :: id in pending ==> id !in done && pending[id] == buffer[id]
      invariant forall id :: id in done ==> done[id] == buffer[id]
      invariant FlushedInto(table, done, rows)
      decreases |pending|
    {
      var id :| id in pending;
      var obj := pending[id];
      var row := RowOf(id, obj);
      FlushStep(table, done, rows, id, obj);
      if row !in rows {
        rows := rows[row := obj];
      }
      pending := pending - {id};
      done := done[id := obj];
    }
    assert done == buffer;
  }

  /** The objects under `keys`, in that order: the callback of the
      `for_each` methods applied to each in turn. */
  method Gather<K, V>(m: map<K, V>, keys: seq<K>) returns (vs: seq<V>)
    requires forall i :: 0 <= i < |keys| ==> keys[i] in m
    ensures |vs| == |keys| && forall i :: 0 <= i < |keys| ==> vs[i] == m[keys[i]]
  {
    vs := [];
    for i := 0 to |keys|
      invariant |vs| == i && forall j :: 0 <= j < i ==> vs[j] == m[keys[j]]
    {
      vs := vs + [m[keys[i]]];
    }
  }

  /** The ids of the objects of kind `filter`, in an unspecified order. */
  method IdsOfKind(m: map<OsmId, OsmObj>, filter: Kind) returns (ids: seq<OsmId>)
    ensures Distinct(ids) && forall id :: id in ids <==> id in m && m[id].kind == filter
  {
    var all := KeysOf(m);
    ids := [];
    for i := 0 to |all|
      invariant Distinct(ids)
      invariant forall id :: id in ids <==> id in all[..i] && m[id].kind == filter
    {
      var id := all[i];
      assert all[..i + 1] == all[..i] + [id];
      assert id !in all[..i];
      if m[id].kind == filter {
        ids := ids + [id];
      }
    }
    assert all[..|all|] == all;
  }

  /** The rows whose kind column is the code of `filter`, in an
      unspecified order. */
  method RowsOfKind(table: map<RowKey, OsmObj>, filter: Kind) returns (rows: seq<RowKey>)
    ensures Distinct(rows) && forall r :: r in rows <==> r in table && r.1 == KindCode(filter)
  {
    var all := KeysOf(table);
    rows := [];
    for i := 0 to |all|
      invariant Distinct(rows)
      invariant forall r :: r in rows <==> r in all[..i] && r.1 == KindCode(filter)
    {
      var r := all[i];
      assert all[..i + 1] == all[..i] + [r];
      assert r !in all[..i];
      if r.1 == KindCode(filter) {
        rows := rows + [r];
      }
    }
    assert all[..|all|] == all;
  }

  /** The order of `OsmId`, derived from its declaration: nodes, then
      ways, then relations, each by number. */
  predicate IdLess(a: OsmId, b: OsmId)
  {
    KindCode(a.kind) < KindCode(b.kind) || (a.kind == b.kind && a.inner < b.inner)
  }

  /** Two different ids are ordered one way or the other. */
  lemma IdLessTotal(a: OsmId, b: OsmId)
    ensures a == b || IdLess(a, b) || IdLess(b, a)
  {
    KindCodeInjective(a.kind, b.kind);
  }

  lemma IdLessTransitive(a: OsmId, b: OsmId, c: OsmId)
    requires IdLess(a, b) && IdLess(b, c)
    ensures IdLess(a, c)
  {
  }

  /** A non-empty set of ids has a least element. */
  lemma {:induction false} HasLeast(ids: set<OsmId>) returns (m: OsmId)
    requires ids != {}
    ensures m in ids && forall k :: k in ids && k != m ==> IdLess(m, k)
    decreases |ids|
  {
    var x :| x in ids;
    var rest := ids - {x};
    if rest == {} {
      m := x;
      assert forall k :: k in ids && k != x ==> k in rest;
    } else {
      var least := HasLeast(rest);
      IdLessTotal(x, least);
      if IdLess(x, least) {
        m := x;
        forall k | k in ids && k != x
          ensures IdLess(x, k)
        {
          assert k in rest;
          if k != least {
            IdLessTransitive(x, least, k);
          }
        }
      } else {
        m := least;
        forall k | k in ids && k != least
          ensures IdLess(least, k)
        {
          if k != x {
            assert k in rest;
          }
        }
      }
    }
  }

  /** `s` is strictly ascending. */
  ghost predicate Ascending(s: seq<OsmId>)
  {
    forall i, j :: 0 <= i < j < |s| ==> IdLess(s[i], s[j])
  }

  /** The keys of a `BTreeMap` in the order its iterator gives them. */
  method SortedKeys(m: map<OsmId, OsmObj>) returns (s: seq<OsmId>)
    ensures Enumerates(s, m.Keys) && Ascending(s)
  {
    s := [];
    var rest := m.Keys;
    while rest != {}
      invariant rest <= m.Keys
      invariant Ascending(s)
      invariant forall k :: k in m.Keys <==> k in s || k in rest
      invariant forall i, k :: 0 <= i < |s| && k in rest ==> IdLess(s[i], k)
      decreases |rest|
    {
      ghost var least := HasLeast(rest);
      var k :| k in rest && forall k' :: k' in rest && k' != k ==> IdLess(k, k');
      s := s + [k];
      rest := rest - {k};
    }
  }

  /** The `filter` on kind over keys taken in ascending order. */
  method KindFilter(m: map<OsmId, OsmObj>, ids: seq<OsmId>, filter: Kind) returns (out: seq<OsmId>)
    requires Ascending(ids) && forall id :: id in ids ==> id in m
    ensures Ascending(out)
    ensures forall id :: id in out <==> id in ids && m[id].kind == filter
  {
    out := [];
    var i := 0;
    while i < |ids|
      invariant 0 <= i <= |ids|
      invariant Ascending(out)
      invariant forall id :: id in out <==> id in ids[..i] && m[id].kind == filter
      decreases |ids| - i
    {
      assert ids[..i + 1] == ids[..i] + [ids[i]];
      if m[ids[i]].kind == filter {
        assert forall x :: x in out ==> IdLess(x, ids[i]);
        out := out + [ids[i]];
      }
      i := i + 1;
    }
    assert ids[..i] == ids;
  }

  /** The keys of a map in an unspecified order, as a hash map's iterator
      gives them. */
  method KeysOf<K(!new), V>(m: map<K, V>) returns (s: seq<K>)
    ensures Enumerates(s, m.Keys)
  {
    s := [];
    var rest := m.Keys;
    while rest != {}
      invariant rest <= m.Keys
      invariant forall i, j :: 0 <= i < j < |s| ==> s[i] != s[j]
      invariant forall k :: k in m.Keys <==> k in s || k in rest
      invariant forall k :: k in rest ==> k !in s
      decreases |rest|
    {
      var k :| k in rest;
      s := s + [k];
      rest := rest - {k};
    }
  }

  /** `ObjWrapper`: a plain map, or a `DB` to which every call is passed. */
  class ObjWrapper {
    var objects: map<OsmId, OsmObj>
    const db: DB?

    ghost predicate Valid()
      reads this, db
    {
      db != null ==> db.Valid()
    }

    /** `ObjWrapper::new`: a `DB` when a database file is given, an empty
      map otherwise. */
    constructor (withDb: bool, bufferSize: nat)
      ensures Valid()
      ensures objects == map[]
      ensures withDb <==> db != null
      ensures db != null ==> fresh(db) && db.buffer == map[] && db.table == map[] && db.bufferSize == bufferSize
    {
      objects := map[];
      if withDb {
        db := new DB(bufferSize);
      } else {
        db := null;
      }
    }

    /** `Getter::get`. */
    function Get(id: OsmId): (r: Option<OsmObj>)
      reads this, db
      ensures db == null ==> (r.Some? <==> id in objects) && (id in objects ==> r == Some(objects[id]))
      ensures db != null ==> r == db.GetFromId(id)
    {
      if db == null then (if id in objects then Some(objects[id]) else None)
      else db.GetFromId(id)
    }

    /** `StoreObjs::contains_key`. */
    function ContainsKey(id: OsmId): (b: bool)
      reads this, db
      ensures b <==> Get(id).Some?
    {
      if db == null then id in objects else db.ContainsKey(id)
    }

    /** `StoreObjs::insert`: the map variant overwrites. */
    method Insert(id: OsmId, obj: OsmObj)
      requires Valid()
      modifies this, db
      ensures Valid()
      ensures db == null ==> objects == old(objects)[id := obj]
      ensures db != null ==> objects == old(objects)
      ensures db != null && |old(db.buffer)| >= db.bufferSize ==>
        FlushedInto(old(db.table), old(db.buffer), db.table) && db.buffer == map[id := obj]
      ensures db != null && |old(db.buffer)| < db.bufferSize ==>
        db.table == old(db.table) && db.buffer == old(db.buffer)[id := obj]
      ensures Get(id) == Some(obj) && ContainsKey(id)
    {
      if db == null {
        objects := objects[id := obj];
      } else {
        db.Insert(id, obj);
      }
    }

    /** `for_each`: the map variant visits its objects in ascending id
      order, as a `BTreeMap` yields them; the DB variant is `DB::for_each`. */
    method ForEach() returns (visited: seq<OsmObj>)
      requires Valid()
      ensures db == null ==> |visited| == |objects|
      ensures db == null ==> exists ids :: Enumerates(ids, objects.Keys) && Ascending(ids) && Visits(visited, ids, objects)
      ensures db != null ==> |visited| == |db.buffer| + |db.table|
      ensures db != null ==> exists ids, rows ::
        Enumerates(ids, db.buffer.Keys) && Enumerates(rows, db.table.Keys) && BufferThenRows(visited, ids, rows, db.buffer, db.table)
    {
      if db == null {
        var ids := SortedKeys(objects);
        visited := Gather(objects, ids);
        assert Visits(visited, ids, objects);
        EnumerationSize(ids, objects.Keys);
      } else {
        var ids, rows;
        ids, rows, visited := db.ForEach();
        EnumerationSize(ids, db.buffer.Keys);
        EnumerationSize(rows, db.table.Keys);
        assert BufferThenRows(visited, ids, rows, db.buffer, db.table);
      }
    }

    /** `for_each_filter`: only objects of kind `filter` are visited; the
      map variant visits them in ascending id order, and the DB variant is
      `DB::for_each_filter`. */
    method ForEachFilter(filter: Kind) returns (visited: seq<OsmObj>)
      requires Valid()
      ensures forall i :: 0 <= i < |visited| ==> visited[i].kind == filter
      ensures db == null ==> |visited| == |set id | id in objects && objects[id].kind == filter|
      ensures db == null ==> exists ids ::
        Enumerates(ids, set id | id in objects && objects[id].kind == filter) && Ascending(ids) && Visits(visited, ids, objects)
      ensures db != null ==> exists ids, rows ::
        && Enumerates(ids, set id | id in db.buffer && db.buffer[id].kind == filter)
        && Enumerates(rows, set r | r in db.table && r.1 == KindCode(filter))
        && BufferThenRows(visited, ids, rows, db.buffer, db.table)
    {
      if db == null {
        var all := SortedKeys(objects);
        var ids := KindFilter(objects, all, filter);
        visited := Gather(objects, ids);
        assert Visits(visited, ids, objects);
        assert Enumerates(ids, set id | id in objects && objects[id].kind == filter);
        EnumerationSize(ids, set id | id in objects && objects[id].kind == filter);
      } else {
        var ids, rows;
        ids, rows, visited := db.ForEachFilter(filter);
        assert Enumerates(ids, set id | id in db.buffer && db.buffer[id].kind == filter);
        assert Enumerates(rows, set r | r in db.table && r.1 == KindCode(filter));
        assert BufferThenRows(visited, ids, rows, db.buffer, db.table);
      }
    }
  }

  /** `visited` is the buffered objects in the order `ids`, then the rows
      in the order `rows`. */
  ghost predicate BufferThenRows(visited: seq<OsmObj>, ids: seq<OsmId>, rows: seq<RowKey>,
                                 buffer: map<OsmId, OsmObj>, table: map<RowKey, OsmObj>)
  {
    && |visited| == |ids| + |rows|
    && (forall i :: 0 <= i < |ids| ==> ids[i] in buffer && visited[i] == buffer[ids[i]])
    && (forall i :: 0 <= i < |rows| ==> rows[i] in table && visited[|ids| + i] == table[rows[i]])
  }

  /** `visited` is the objects of `m` in the order `ids`. */
  ghost predicate Visits(visited: seq<OsmObj>, ids: seq<OsmId>, m: map<OsmId, OsmObj>)
  {
    && |visited| == |ids|
    && forall i :: 0 <= i < |ids| ==> ids[i] in m && visited[i] == m[ids[i]]
  }

  /** An enumeration has as many elements as the set it lists. */
  lemma {:induction false} EnumerationSize<K(!new)>(s: seq<K>, keys: set<K>)
    requires Enumerates(s, keys)
    ensures |s| == |keys|
    decreases |s|
  {
    if s != [] {
      var last := s[|s| - 1];
      var init := s[..|s| - 1];
      assert forall k :: k in init ==> k in s;
      assert Enumerates(init, keys - {last}) by {
        forall k | k in keys - {last}
          ensures k in init
        {
          var i :| 0 <= i < |s| && s[i] == k;
          assert i != |s| - 1;
          assert init[i] == k;
        }
      }
      EnumerationSize(init, keys - {last});
    } else {
      assert keys == {} by {
        forall k | k in keys ensures false { }
      }
    }
  }
}
