/**
 * The dedup cache of ytldl/yt/cache.py: a set of item IDs that have been processed.
 * MemoryCache keeps the set in memory; SqliteCache keeps it in a table with a UNIQUE
 * column and queues writes in a pending batch that is flushed by size or on commit/close.
 */
module Cache {
  import opened Common

  /** The in-memory variant. Nothing is ever removed from the set. */
  class MemoryCache {
    var cache: set<string>

    constructor (initItems: seq<string>)
      ensures cache == Elems(initItems)
    {
      cache := Elems(initItems);
    }

    /** set(items) - cache */
    method FilterUncached(items: seq<string>) returns (uncached: set<string>)
      ensures forall x :: x in uncached <==> x in items && x !in cache
    {
      uncached := Elems(items) - cache;
    }

    method AddItems(items: seq<string>)
      modifies this
      ensures cache == old(cache) + Elems(items)
    {
      cache := cache + Elems(items);
    }

    /** Cache.commit is an abstract method whose body is `pass`. */
    method Commit()
      ensures cache == old(cache)
    {
    }

    /** Cache.close only calls commit. */
    method Close()
      ensures cache == old(cache)
    {
      Commit();
    }
  }

  // ---------------------------------------------------------------------------
  // SqliteCache as a state machine on values.

  /** rows: the committed table; batch: the pending writes; isOpen: the connection. */
  datatype Table = Table(rows: set<string>, batch: seq<string>, isOpen: bool)

  /** The result of one operation: the new state and whether the operation raised. */
  datatype Step = Step(table: Table, raised: bool)

  /**
   * commit(): nothing to do on an empty batch; otherwise INSERT OR IGNORE of every
   * batch item (which raises on a closed connection) and an empty batch.
   */
  function Flush(t: Table): (r: Step)
    ensures t.batch == [] ==> r == Step(t, false)
    ensures t.batch != [] && !t.isOpen ==> r == Step(t, true)
    ensures t.batch != [] && t.isOpen ==>
              !r.raised && r.table.batch == [] && r.table.isOpen &&
              (forall x :: x in r.table.rows <==> x in t.rows || x in t.batch)
  {
    if |t.batch| == 0 then Step(t, false)
    else if !t.isOpen then Step(t, true)
    else Step(Table(t.rows + Elems(t.batch), [], true), false)
  }

  /** True when add_items must commit after extending the batch to `len` items. */
  predicate MustCommit(batchSize: int, len: nat)
  {
    batchSize == 0 || (batchSize != 0 && len >= batchSize)
  }

  /** add_items(items): extend the batch, then commit when MustCommit holds. */
  function Add(t: Table, batchSize: int, items: seq<string>): (r: Step)
    ensures var extended := t.(batch := t.batch + items);
            if MustCommit(batchSize, |extended.batch|) then r == Flush(extended)
            else r == Step(extended, false)
  {
    var extended := t.(batch := t.batch + items);
    if MustCommit(batchSize, |extended.batch|) then Flush(extended) else Step(extended, false)
  }

  /** close(): the base class's close commits; then the connection is closed. */
  function CloseTable(t: Table): (r: Step)
    ensures Flush(t).raised ==> r == Flush(t)
    ensures !Flush(t).raised ==> r == Step(Flush(t).table.(isOpen := false), false)
  {
    var f := Flush(t);
    if f.raised then f else Step(f.table.(isOpen := false), false)
  }

  /**
   * filter_uncached(items): a SELECT over the committed rows; pending batch items are
   * not seen. A closed connection raises.
   */
  function Uncached(t: Table, items: seq<string>): (r: Option<set<string>>)
    ensures r.Some? <==> t.isOpen
    ensures r.Some? ==> forall x :: x in r.value <==> x in items && x !in t.rows
  {
    if t.isOpen then Some(Elems(items) - t.rows) else None
  }

  /**
   * The size invariant that add_items establishes: with batch_size 0 (or below) every
   * add is flushed, otherwise fewer than batch_size items are pending.
   */
  predicate BatchBound(t: Table, batchSize: int)
  {
    if batchSize <= 0 then t.batch == [] else |t.batch| < batchSize
  }

  lemma AddEstablishesBatchBound(t: Table, batchSize: int, items: seq<string>)
    requires t.isOpen
    ensures !Add(t, batchSize, items).raised
    ensures BatchBound(Add(t, batchSize, items).table, batchSize)
    ensures Add(t, batchSize, items).table.isOpen
  {
  }

  /** The pending items plus the committed rows: what the cache will hold once flushed. */
  function Recorded(t: Table): set<string>
  {
    t.rows + Elems(t.batch)
  }

  /** On an open table an add never raises and records its items. */
  lemma AddRecords(t: Table, batchSize: int, items: seq<string>)
    requires t.isOpen
    ensures !Add(t, batchSize, items).raised && Add(t, batchSize, items).table.isOpen
    ensures Recorded(Add(t, batchSize, items).table) == Recorded(t) + Elems(items)
  {
    ElemsAppend(t.batch, items);
  }

  datatype CacheOp = AddOp(items: seq<string>) | CommitOp | CloseOp

  function Apply(t: Table, batchSize: int, op: CacheOp): Step
  {
    match op
    case AddOp(items) => Add(t, batchSize, items)
    case CommitOp => Flush(t)
    case CloseOp => CloseTable(t)
  }

  /** A sequence of operations, stopping at the first one that raises. */
  function Run(t: Table, batchSize: int, ops: seq<CacheOp>): Step
    decreases |ops|
  {
    if ops == [] then Step(t, false)
    else
      var s := Apply(t, batchSize, ops[0]);
      if s.raised then s else Run(s.table, batchSize, ops[1..])
  }

  function AddedItems(ops: seq<CacheOp>): set<string>
    decreases |ops|
  {
    if ops == [] then {}
    else (if ops[0].AddOp? then Elems(ops[0].items) else {}) + AddedItems(ops[1..])
  }

  function LastIsClose(ops: seq<CacheOp>): bool
  {
    ops != [] && ops[|ops| - 1] == CloseOp
  }

  /** Committed rows are never removed, whatever happens. */
  lemma {:induction false} RunKeepsRows(t: Table, batchSize: int, ops: seq<CacheOp>)
    ensures t.rows <= Run(t, batchSize, ops).table.rows
    decreases |ops|
  {
    if ops != [] {
      var s := Apply(t, batchSize, ops[0]);
      assert t.rows <= s.table.rows;
      if !s.raised {
        RunKeepsRows(s.table, batchSize, ops[1..]);
      }
    }
  }

  /**
   * Nothing is lost and nothing is invented: after a run that raised nowhere, the
   * committed rows together with the pending batch are exactly what was there before
   * plus every item ever added.
   */
  lemma {:induction false} RunAccountsForEveryItem(t: Table, batchSize: int, ops: seq<CacheOp>)
    requires !Run(t, batchSize, ops).raised
    ensures Recorded(Run(t, batchSize, ops).table) == Recorded(t) + AddedItems(ops)
    decreases |ops|
  {
    if ops != [] {
      var s := Apply(t, batchSize, ops[0]);
      ElemsAppend(t.batch, if ops[0].AddOp? then ops[0].items else []);
      assert Recorded(s.table) == Recorded(t) + (if ops[0].AddOp? then Elems(ops[0].items) else {});
      RunAccountsForEveryItem(s.table, batchSize, ops[1..]);
    }
  }

  /** Every operation of a run that raised nowhere leaves the batch within its bound. */
  lemma {:induction false} RunKeepsBatchBound(t: Table, batchSize: int, ops: seq<CacheOp>)
    requires BatchBound(t, batchSize)
    requires !Run(t, batchSize, ops).raised
    ensures BatchBound(Run(t, batchSize, ops).table, batchSize)
    decreases |ops|
  {
    if ops != [] {
      var s := Apply(t, batchSize, ops[0]);
      if ops[0].AddOp? {
        var extended := t.batch + ops[0].items;
        if !MustCommit(batchSize, |extended|) {
          assert batchSize > 0 && |extended| < batchSize;
        }
      }
      assert BatchBound(s.table, batchSize);
      RunKeepsBatchBound(s.table, batchSize, ops[1..]);
    }
  }

  /**
   * A run that ends with a close that did not raise leaves nothing pending: every item
   * ever added is in the committed table.
   */
  lemma {:induction false} CloseFlushesEverything(t: Table, batchSize: int, ops: seq<CacheOp>)
    requires LastIsClose(ops)
    requires !Run(t, batchSize, ops).raised
    ensures Run(t, batchSize, ops).table.batch == []
    ensures !Run(t, batchSize, ops).table.isOpen
    ensures Recorded(t) + AddedItems(ops) <= Run(t, batchSize, ops).table.rows
    decreases |ops|
  {
    var s := Apply(t, batchSize, ops[0]);
    if |ops| == 1 {
      assert ops[0] == CloseOp;
      assert Run(s.table, batchSize, ops[1..]) == Step(s.table, false);
      assert AddedItems(ops) == {};
    } else {
      assert ops[1..][|ops[1..]| - 1] == CloseOp;
      assert Recorded(s.table) == Recorded(t) + (if ops[0].AddOp? then Elems(ops[0].items) else {}) by {
        ElemsAppend(t.batch, if ops[0].AddOp? then ops[0].items else []);
      }
      CloseFlushesEverything(s.table, batchSize, ops[1..]);
    }
  }

  /**
   * Adding A, committing and then asking about A and B reports exactly the items of B
   * that were neither in A nor stored before.
   */
  lemma AddCommitFilter(t: Table, batchSize: int, a: seq<string>, b: seq<string>)
    requires t.isOpen
    ensures var s := Flush(Add(t, batchSize, a).table).table;
            Uncached(s, a + b) == Some(Elems(b) - Elems(a) - t.rows - Elems(t.batch))
  {
    var s := Flush(Add(t, batchSize, a).table).table;
    ElemsAppend(t.batch, a);
    ElemsAppend(a, b);
    assert s.isOpen && s.rows == t.rows + Elems(t.batch) + Elems(a);
    assert Elems(a + b) - s.rows == Elems(b) - Elems(a) - t.rows - Elems(t.batch);
  }

  /** The batch test: with batch_size 2 the first single add waits, the second flushes. */
  lemma BatchSizeTwoScenario(rows: set<string>)
    ensures var s1 := Add(Table(rows, [], true), 2, ["10"]);
            var s2 := Add(s1.table, 2, ["11"]);
            |s1.table.batch| == 1 && |s2.table.batch| == 0 && s2.table.rows == rows + {"10", "11"}
  {
    var s1 := Add(Table(rows, [], true), 2, ["10"]);
    assert s1.table.batch == ["10"];
    var s2 := Add(s1.table, 2, ["11"]);
    assert s2.table.rows == rows + Elems(["10", "11"]);
  }

  // ---------------------------------------------------------------------------
  // SqliteCache as the class the source defines.

  class SqliteCache {
    const batchSize: int
    var rows: set<string>       // the "items" table, UNIQUE item column
    var batch: seq<string>      // pending writes
    var isOpen: bool            // the sqlite3 connection

    function State(): Table
      reads this
    {
      Table(rows, batch, isOpen)
    }

    /**
     * Opening the database file whose table already holds `stored` (SqliteCache.create
     * makes a table with no rows).
     */
    constructor (stored: set<string>, batchSize: int)
      ensures State() == Table(stored, [], true) && this.batchSize == batchSize
      ensures BatchBound(State(), batchSize)
    {
      this.batchSize := batchSize;
      rows := stored;
      batch := [];
      isOpen := true;
    }

    method FilterUncached(items: seq<string>) returns (uncached: Option<set<string>>)
      ensures uncached == Uncached(State(), items)
      ensures uncached.Some? ==> forall x :: x in uncached.value <==> x in items && x !in rows
    {
      if !isOpen {
        return None;
      }
      uncached := Some(Elems(items) - rows);
    }

    method Commit() returns (raised: bool)
      modifies this
      ensures Step(State(), raised) == Flush(old(State()))
    {
      if |batch| == 0 {
        return false;
      }
      if !isOpen {
        return true;
      }
      rows := rows + Elems(batch);
      batch := [];
      raised := false;
    }

    method AddItems(items: seq<string>) returns (raised: bool)
      modifies this
      ensures Step(State(), raised) == Add(old(State()), batchSize, items)
      ensures old(isOpen) ==> !raised && BatchBound(State(), batchSize)
    {
      batch := batch + items;
      var exceedsBatchSize := batchSize != 0 && |batch| >= batchSize;
      raised := false;
      if batchSize == 0 || exceedsBatchSize {
        raised := Commit();
      }
    }

    method Close() returns (raised: bool)
      modifies this
      ensures Step(State(), raised) == CloseTable(old(State()))
      ensures !raised ==> batch == [] && !isOpen && old(Recorded(State())) <= rows
    {
      raised := Commit();
      if !raised {
        isOpen := false;
      }
    }
  }
}
