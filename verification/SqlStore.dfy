/** The SQL stores as objects: the statements of each call in order, every one of which may fail, proved against the
    atomic store. What other transactions do in between is the business of the transaction protocol. */
module SqlStore {
  import opened Core
  import opened Transactions
  import EngineProtocol

  /** The statement of an append that fails, if any. */
  datatype Fault = NoFault | AtBegin | AtEnsure | AtRead | AtInsert | AtAdvance | AtCommit

  /** Under the write lock the row is inserted only when it is missing. */
  predicate Fails(shape: Shape, rowExists: bool, fault: Fault) {
    !fault.NoFault? && !(fault.AtEnsure? && shape.Immediate? && rowExists)
  }

  /** A transaction that ran all its statements has written what the protocol's transaction commits. */
  lemma StatementsWrite(tb: Tables, tx: Tx, rows: map<DocId, nat>, ops: map<DocId, map<nat, Op>>)
    requires tx.stage.Advanced?
    requires rows == tb.rows || rows == tb.rows[tx.doc := 0]
    requires ops == tb.ops
    ensures var n := tx.stage.latest + 1;
            tb.(rows := rows[tx.doc := n], ops := ops[tx.doc := OpsOf(tb, tx.doc)[n := Op(n, tx.session, tx.payload)]])
            == Written(tb, tx)
  {
    assert rows[tx.doc := tx.stage.latest + 1] == tb.rows[tx.doc := tx.stage.latest + 1];
  }

  /** Selecting from the operation rows by number is taking the tail of the log. */
  lemma SelectedIsSince(log: seq<Op>, after: int, n: nat, selected: seq<Op>)
    requires n == |log| && selected == Since(log[..n], after)
    ensures selected == Since(log, after)
  {
    assert log[..n] == log;
  }

  lemma SelectOne(log: seq<Op>, after: int, i: nat)
    requires i < |log|
    ensures Since(log[..i + 1], after)
            == if i + 1 > after then Since(log[..i], after) + [log[i]] else Since(log[..i], after)
  {
  }

  class Database {
    const shape: Shape
    var tables: Tables

    ghost predicate Valid()
      reads this
    {
      GapFree(tables)
    }

    /** The documents the rows stand for. */
    function Contents(): map<DocId, Rec>
      reads this
    {
      Docs(tables)
    }

    constructor (shape: Shape)
      ensures Valid() && Contents() == map[] && this.shape == shape
    {
      this.shape := shape;
      tables := Tables(map[], map[], map[]);
      new;
      assert Contents() == map[];
    }

    /** Appends in one transaction: whichever statement fails, the rollback leaves no trace; a committed append is the
        store's atomic one. */
    method AppendOp(d: DocId, change: Bytes, session: SessionId, fault: Fault) returns (r: Option<nat>)
      requires Valid()
      modifies this`tables
      ensures Valid()
      ensures r.None? <==> Fails(shape, d in old(Contents()), fault)
      ensures fault.NoFault? ==> r.Some?
      ensures fault.AtBegin? || fault.AtRead? || fault.AtInsert? || fault.AtAdvance? || fault.AtCommit? ==> r.None?
      ensures fault.AtEnsure? ==> (r.None? <==> shape.RowLock? || d !in old(Contents()))
      ensures r.None? ==> tables == old(tables)
      ensures r.Some? ==> AtomicStep(Store(old(Contents()), map[]), Transactions.AppendOp(0, d, session, change))
                          == Some(Store(Contents(), map[0 := r.value]))
    {
      assert DocGapFree(tables, d);
      if fault.AtBegin? { return None; }
      var rows, latest := tables.rows, 0;
      if shape.Immediate? {
        if fault.AtRead? { return None; }
        if d in rows {
          latest := rows[d];
        } else {
          if fault.AtEnsure? { return None; }
          rows := rows[d := 0];
        }
      } else {
        if fault.AtEnsure? { return None; }
        if d !in rows { rows := rows[d := 0]; }
        if fault.AtRead? { return None; }
        latest := rows[d];
      }
      var n := latest + 1;
      if fault.AtInsert? || n in OpsOf(tables, d) { return None; }
      var ops := tables.ops[d := OpsOf(tables, d)[n := Op(n, session, change)]];
      if fault.AtAdvance? { return None; }
      ghost var tx := Tx(d, session, change, Advanced(latest), false);
      StatementsWrite(tables, tx, rows, tables.ops);
      WrittenGapFree(tables, tx);
      WrittenDocs(tables, tx);
      rows := rows[d := n];
      if fault.AtCommit? { return None; }
      tables := tables.(rows := rows, ops := ops);
      return Some(n);
    }

    /** Deletes the row and, by cascade, its operations and snapshots; a missing row is an error. */
    method DeleteDocument(d: DocId, fault: bool) returns (ok: bool)
      requires Valid()
      modifies this`tables
      ensures Valid()
      ensures ok <==> d in old(Contents()) && !fault
      ensures Contents() == if ok then old(Contents()) - {d} else old(Contents())
    {
      if fault || d !in tables.rows { return false; }
      ghost var s := State(tables, map[], map[], map[]);
      assert Ok(RowLock(false), s);
      DeleteKeepsOk(RowLock(false), s, d);
      DeleteRefines(RowLock(false), s, d);
      tables := Tables(tables.rows - {d}, tables.ops - {d}, tables.snaps - {d});
      return true;
    }

    /** A snapshot row refers to its document's row, so it cannot be saved without one. */
    method SaveSnapshot(d: DocId, state: Bytes, atSeq: nat, fault: bool) returns (ok: bool)
      requires Valid()
      modifies this`tables
      ensures Valid()
      ensures ok <==> d in old(Contents()) && !fault
      ensures !ok ==> tables == old(tables)
      ensures ok ==> AtomicStep(Store(old(Contents()), map[]), Transactions.SaveSnapshot(d, atSeq, state))
                     == Some(Store(Contents(), map[]))
    {
      if fault || d !in tables.rows { return false; }
      ghost var s := State(tables, map[], map[], map[]);
      assert Ok(RowLock(false), s);
      SnapshotKeepsOk(RowLock(false), s, d, atSeq, state);
      SnapshotRefines(s, d, atSeq, state);
      tables := tables.(snaps := tables.snaps[d := TableSnaps(tables, d)[atSeq := state]]);
      return true;
    }

    /** The rows numbered above `after`, in ascending order. */
    method GetOpsSince(d: DocId, after: int) returns (ops: seq<Op>)
      requires Valid()
      ensures ops == Since(LogOf(Contents(), d), after)
    {
      assert DocGapFree(tables, d);
      var rows, latest := OpsOf(tables, d), Latest(tables, d);
      ghost var log := TableLog(tables, d);
      assert log == LogOf(Contents(), d);
      ops := [];
      for i := 0 to latest
        invariant ops == Since(log[..i], after)
      {
        SelectOne(log, after, i);
        if i + 1 > after { ops := ops + [rows[i + 1]]; }
      }
      SelectedIsSince(log, after, latest, ops);
    }

    method GetLatestSeq(d: DocId) returns (n: nat)
      requires Valid()
      ensures n == |LogOf(Contents(), d)|
    {
      n := if d in tables.rows then tables.rows[d] else 0;
    }

    /** The highest-numbered snapshot, or none. */
    method GetSnapshot(d: DocId) returns (r: Option<(Bytes, nat)>)
      ensures r.None? <==> SnapsOf(Contents(), d) == map[]
      ensures r.Some? ==>
                r.value == (EngineProtocol.SnapState(SnapsOf(Contents(), d)),
                            EngineProtocol.SnapSeq(SnapsOf(Contents(), d)))
    {
      var snaps := if d in tables.rows then TableSnaps(tables, d) else map[];
      assert snaps == SnapsOf(Contents(), d);
      r := None;
      var left := snaps.Keys;
      while left != {}
        invariant left <= snaps.Keys
        invariant r.None? ==> left == snaps.Keys
        invariant r.Some? ==> r.value.1 in snaps && r.value.0 == snaps[r.value.1]
        invariant r.Some? ==> forall m :: m in snaps ==> m in left || m <= r.value.1
        decreases |left|
      {
        var n :| n in left;
        if r.None? || n > r.value.1 { r := Some((snaps[n], n)); }
        left := left - {n};
      }
      if r.None? {
        assert snaps.Keys == {};
        assert snaps == map[];
      } else {
        assert r.value.1 in snaps.Keys;
        assert r.value.1 == EngineProtocol.Highest(snaps);
      }
    }
  }
}
