/** The metadata tables: one row per object, one row per chunk of an object. */
module Metadata {
  import opened Common
  import opened ChunkStore

  /** Bucket and key. */
  type Key = (string, string)

  datatype ObjectMetadata = ObjectMetadata(
    bucket: string, key: string, size: nat, checksum: string, chunks: seq<ChunkRef>)

  datatype ObjectRow = ObjectRow(size: nat, checksum: string)

  /** Primary key of a chunk row. */
  datatype RowId = RowId(k: Key, pos: nat)

  type Objects = map<Key, ObjectRow>
  type Rows = map<RowId, ChunkRef>

  /** The chunk rows as lists. A key may have a list and no object, or an object and no list. */
  type ChunkLists = map<Key, seq<ChunkRef>>

  /** The rows are those of the lists, numbered without gaps. */
  ghost predicate Stores(rows: Rows, lists: ChunkLists) {
    && (forall id :: id in rows <==> id.k in lists && id.pos < |lists[id.k]|)
    && (forall id :: id in rows ==> rows[id] == lists[id.k][id.pos])
  }

  function ListOf(lists: ChunkLists, k: Key): seq<ChunkRef> {
    if k in lists then lists[k] else []
  }

  /** Some chunk row names `c`. */
  ghost predicate Referenced(lists: ChunkLists, c: string) {
    exists k, i :: k in lists && 0 <= i < |lists[k]| && lists[k][i].checksum == c
  }

  function RowsNaming(rows: Rows, c: string): set<RowId> {
    set id | id in rows && rows[id].checksum == c
  }

  /** The reference count is zero exactly when no list names the chunk. */
  lemma NoRowsExactly(rows: Rows, lists: ChunkLists, c: string)
    requires Stores(rows, lists)
    ensures |RowsNaming(rows, c)| == 0 <==> !Referenced(lists, c)
  {
    if Referenced(lists, c) {
      var k, i :| k in lists && 0 <= i < |lists[k]| && lists[k][i].checksum == c;
      assert RowId(k, i) in rows;
      assert RowId(k, i) in RowsNaming(rows, c);
    } else {
      forall id | id in rows
        ensures id !in RowsNaming(rows, c)
      {
        assert lists[id.k][id.pos].checksum != c;
      }
      assert RowsNaming(rows, c) == {};
    }
  }

  // ------------------------------------------------------------------- failing queries

  /** What `chunk_ref_count` reports: a query without an answer reads as zero. */
  function Reported(rows: Rows, c: string, answered: bool): nat {
    if answered then |RowsNaming(rows, c)| else 0
  }

  /** A reported zero means that nobody uses the chunk exactly when the query was answered. */
  lemma ZeroReportedExactly(rows: Rows, lists: ChunkLists, c: string, answered: bool)
    requires Stores(rows, lists)
    ensures Reported(rows, c, answered) == 0 <==> !Referenced(lists, c) || !answered
  {
    hide Referenced, RowsNaming;
    NoRowsExactly(rows, lists, c);
  }

  function DropRows(rows: Rows, k: Key): Rows {
    map id | id in rows && id.k != k :: rows[id]
  }

  /** The rows of one key. */
  function RowsOf(rows: Rows, k: Key): set<RowId> {
    set id | id in rows && id.k == k
  }

  lemma RowsOfList(rows: Rows, lists: ChunkLists, k: Key)
    requires Stores(rows, lists)
    ensures |RowsOf(rows, k)| == 0 <==> ListOf(lists, k) == []
  {
    if ListOf(lists, k) != [] {
      assert RowId(k, 0) in RowsOf(rows, k);
    } else {
      assert RowsOf(rows, k) == {};
    }
  }

  lemma DropStores(rows: Rows, lists: ChunkLists, k: Key)
    requires Stores(rows, lists)
    ensures Stores(DropRows(rows, k), lists - {k})
  {
  }

  lemma Dropped(rows: Rows, lists: ChunkLists, k: Key)
    ensures RowsOf(DropRows(rows, k), k) == {} && ListOf(lists - {k}, k) == []
  {
  }

  lemma FirstFree(rows: Rows, lists: ChunkLists, k: Key)
    requires Stores(rows, lists)
    ensures RowId(k, 0) !in rows ==> ListOf(lists, k) == []
  {
  }

  /** `rows` and the first `pos` chunks of `chunks`, inserted for `k`. */
  ghost predicate Inserted(rows: Rows, k: Key, chunks: seq<ChunkRef>, pos: nat, rows': Rows)
    requires pos <= |chunks|
  {
    && (forall id :: id in rows' <==> id in rows || (id.k == k && id.pos < pos))
    && (forall id :: id in rows' ==> rows'[id] == if id.k == k && id.pos < pos then chunks[id.pos] else rows[id])
  }

  lemma InsertedAll(rows: Rows, lists: ChunkLists, k: Key, chunks: seq<ChunkRef>, rows': Rows)
    requires Stores(rows, lists) && Inserted(rows, k, chunks, |chunks|, rows')
    requires ListOf(lists, k) == [] || chunks == []
    ensures Stores(rows', if chunks == [] then lists else lists[k := chunks])
    ensures chunks == [] && ListOf(lists, k) == [] ==> Stores(rows', lists[k := chunks])
  {
  }

  class MetadataStore {
    var objects: Objects
    var rows: Rows
    /** A transaction whose COMMIT failed is still open. */
    var open: bool
    ghost var lists: ChunkLists

    ghost predicate Valid()
      reads this
    {
      Stores(rows, lists)
    }

    constructor ()
      ensures Valid() && objects == map[] && lists == map[] && !open
    {
      objects, rows, open, lists := map[], map[], false, map[];
    }

    /** One transaction: replace the object row, drop its old chunk rows, insert the new
        ones. A failing insert rolls everything back; the result of the deletion is not looked
        at, but rows that stay make the first insert fail; a failing COMMIT may leave the
        changes in place, in a transaction that stays open and refuses every later one. */
    method PutObject(m: ObjectMetadata, dbOk: bool) returns (ok: bool, ghost done: bool)
      requires Valid()
      modifies this
      ensures Valid() && (ok ==> done) && (dbOk && !old(open) ==> ok)
      ensures (dbOk ==> (ok <==> done)) && (old(open) ==> !done)
      ensures open == if done then !ok else old(open)
      ensures objects == if done then old(objects)[(m.bucket, m.key) := ObjectRow(m.size, m.checksum)] else old(objects)
      ensures !done ==> lists == old(lists)
      ensures done && (dbOk || m.chunks != []) ==> lists == old(lists)[(m.bucket, m.key) := m.chunks]
    {
      hide Stores;
      done := false;
      var k := (m.bucket, m.key);
      var fails, dropped: bool, commits: bool, undone: bool := *, *, *, *;
      if open || (!dbOk && fails) {
        return false, done;
      }
      var newRows := if dbOk || dropped then DropRows(rows, k) else rows;
      ghost var base, left := newRows, if dbOk || dropped then lists - {k} else lists;
      DropStores(rows, lists, k);
      var inserted;
      newRows, inserted := InsertRows(newRows, k, m.chunks, dbOk);
      Dropped(rows, lists, k);
      if !inserted || (!dbOk && !commits && undone) {
        return false, done;
      }
      FirstFree(base, left, k);
      InsertedAll(base, left, k, m.chunks, newRows);
      objects, rows := objects[k := ObjectRow(m.size, m.checksum)], newRows;
      lists := if m.chunks == [] && !dbOk then left else left[k := m.chunks];
      assert dbOk || m.chunks != [] ==> lists == old(lists)[k := m.chunks];
      ok, done := dbOk || commits, true;
      open := !ok;
    }

    /** The inserting loop. */
    static method InsertRows(rows: Rows, k: Key, chunks: seq<ChunkRef>, dbOk: bool) returns (rows': Rows, ok: bool)
      ensures ok ==> Inserted(rows, k, chunks, |chunks|, rows') && (chunks != [] ==> RowId(k, 0) !in rows)
      ensures dbOk && RowsOf(rows, k) == {} ==> ok
    {
      rows' := rows;
      for pos := 0 to |chunks|
        invariant Inserted(rows, k, chunks, pos, rows') && (pos > 0 ==> RowId(k, 0) !in rows)
      {
        var fails: bool := *;
        if (!dbOk && fails) || RowId(k, pos) in rows' {
          assert dbOk ==> RowId(k, pos) in RowsOf(rows, k);
          return rows', false;
        }
        rows' := rows'[RowId(k, pos) := chunks[pos]];
      }
      ok := true;
    }

    /** Not found also when the object query fails, and only the first `fetched` chunks when the
        chunk query breaks off. */
    method GetObject(bucket: string, key: string, dbOk: bool)
      returns (r: Result<ObjectMetadata>, ghost answered: bool)
      requires Valid()
      ensures r.Err? ==> r.code == NotFound
      ensures r.Ok? <==> (bucket, key) in objects && answered
      ensures r.Ok? ==>
                var o := objects[(bucket, key)];
                && r.value == ObjectMetadata(bucket, key, o.size, o.checksum, r.value.chunks)
                && r.value.chunks <= ListOf(lists, (bucket, key))
      ensures dbOk ==> r == if (bucket, key) !in objects then Err(NotFound) else
                var o := objects[(bucket, key)];
                Ok(ObjectMetadata(bucket, key, o.size, o.checksum, ListOf(lists, (bucket, key))))
      ensures dbOk ==> answered
    {
      var k := (bucket, key);
      var fails: bool := *;
      answered := dbOk || !fails;
      if (!dbOk && fails) || k !in objects {
        return Err(NotFound), answered;
      }
      var chunks := [];
      ghost var all := ListOf(lists, k);
      while RowId(k, |chunks|) in rows
        invariant |chunks| <= |all| && chunks == all[..|chunks|]
        decreases |all| - |chunks|
      {
        var breaks: bool := *;
        if !dbOk && breaks {
          break;
        }
        chunks := chunks + [rows[RowId(k, |chunks|)]];
      }
      assert dbOk ==> chunks == all;
      r := Ok(ObjectMetadata(bucket, key, objects[k].size, objects[k].checksum, chunks));
    }

    /** Two statements whose own results are not looked at. What is: how many rows the last
        statement that completed has changed - if both fail, some earlier statement's count. */
    method DeleteObject(bucket: string, key: string, dbOk: bool)
      returns (r: Result<()>, ghost rowsGone: bool, ghost objectGone: bool)
      requires Valid()
      modifies this`objects, this`rows, this`lists
      ensures Valid() && (dbOk ==> rowsGone && objectGone)
      ensures lists == if rowsGone then old(lists) - {(bucket, key)} else old(lists)
      ensures objects == if objectGone then old(objects) - {(bucket, key)} else old(objects)
      ensures r.Err? ==> r.code == NotFound
      ensures objectGone ==> (r.Ok? <==> (bucket, key) in old(objects))
      ensures !objectGone && rowsGone ==> (r.Ok? <==> ListOf(old(lists), (bucket, key)) != [])
    {
      var k := (bucket, key);
      var changed: nat, rowsFail: bool, objectFails: bool := *, *, *;
      rowsGone, objectGone := dbOk || !rowsFail, dbOk || !objectFails;
      if dbOk || !rowsFail {
        changed := |RowsOf(rows, k)|;
        RowsOfList(rows, lists, k);
        DropStores(rows, lists, k);
        rows, lists := DropRows(rows, k), lists - {k};
      }
      if dbOk || !objectFails {
        changed := if k in objects then 1 else 0;
        objects := objects - {k};
      }
      r := if changed == 0 then Err(NotFound) else Ok(());
    }

    /** Counts the chunk rows naming `c`, over all objects. */
    method ChunkRefCount(c: string, dbOk: bool) returns (n: nat, ghost answered: bool)
      requires Valid()
      ensures n == 0 || n == |RowsNaming(rows, c)|
      ensures dbOk ==> n == |RowsNaming(rows, c)| && (n == 0 <==> !Referenced(lists, c))
      ensures n == Reported(rows, c, answered) && (dbOk ==> answered)
      ensures n == 0 <==> !Referenced(lists, c) || !answered
    {
      ZeroReportedExactly(rows, lists, c, false);
      ZeroReportedExactly(rows, lists, c, true);
      hide Stores, Referenced;
      var fails: bool := *;
      if !dbOk && fails {
        return 0, false;
      }
      answered := true;
      n := 0;
      var todo := rows.Keys;
      ghost var counted: set<RowId> := {};
      while todo != {}
        invariant todo <= rows.Keys && n == |counted|
        invariant counted == set id | id in rows.Keys - todo && rows[id].checksum == c
      {
        var id :| id in todo;
        if rows[id].checksum == c {
          assert id !in counted;
          n := n + 1;
          counted := counted + {id};
        }
        todo := todo - {id};
      }
      assert counted == RowsNaming(rows, c);
    }
  }
}
