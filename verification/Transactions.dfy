/** Appending inside a database, step by step: any number of interleaved append transactions, deletes, creates and
    rollbacks, under the two locking shapes the backends use. Both refine one atomic append. */
module Transactions {
  import opened Core
  import opened Runs

  // ----- the atomic store ----------------------------------------------------------------------------------------

  datatype Rec = Rec(log: seq<Op>, snaps: map<nat, Bytes>)

  /** The store as its contract describes it, and the number each finished append returned. */
  datatype Store = Store(docs: map<DocId, Rec>, returned: map<TxId, nat>)

  type TxId = nat

  datatype Atomic =
    | AppendOp(t: TxId, doc: DocId, session: SessionId, payload: Bytes)
    | DeleteDocument(doc: DocId)
    | CreateDocument(doc: DocId)
    | SaveSnapshot(doc: DocId, atSeq: nat, state: Bytes)

  function LogOf(docs: map<DocId, Rec>, d: DocId): seq<Op> {
    if d in docs then docs[d].log else []
  }

  function SnapsOf(docs: map<DocId, Rec>, d: DocId): map<nat, Bytes> {
    if d in docs then docs[d].snaps else map[]
  }

  function AtomicStep(s: Store, a: Atomic): Option<Store> {
    match a
    case AppendOp(t, d, session, payload) =>
      if t in s.returned then None
      else
        var n := |LogOf(s.docs, d)| + 1;
        Some(Store(s.docs[d := Rec(LogOf(s.docs, d) + [Op(n, session, payload)], SnapsOf(s.docs, d))],
                   s.returned[t := n]))
    case DeleteDocument(d) => if d in s.docs then Some(s.(docs := s.docs - {d})) else None
    case CreateDocument(d) => if d in s.docs then None else Some(s.(docs := s.docs[d := Rec([], map[])]))
    case SaveSnapshot(d, n, state) =>
      if d !in s.docs then None else Some(s.(docs := s.docs[d := s.docs[d].(snaps := s.docs[d].snaps[n := state])]))
  }

  // ----- tables, locks and transactions --------------------------------------------------------------------------

  /** The committed tables: latest_seq per document row, the operations keyed by document and sequence number, and the
      snapshots keyed the same way. */
  datatype Tables = Tables(rows: map<DocId, nat>, ops: map<DocId, map<nat, Op>>, snaps: map<DocId, map<nat, Bytes>>)

  /** `Immediate` takes the database's write lock when the transaction begins. `RowLock` ensures the row, then locks
      and reads it; with `ensureLocks` ensuring an existing row locks it already. */
  datatype Shape = Immediate | RowLock(ensureLocks: bool)

  datatype Key = Database | Row(doc: DocId)

  function KeyOf(shape: Shape, d: DocId): Key {
    if shape.Immediate? then Database else Row(d)
  }

  /** Where an append transaction is; what it has written so far is visible to nobody else. */
  datatype Stage = Begun | Ensured | ReadLatest(latest: nat) | Inserted(latest: nat) | Advanced(latest: nat)

  /** `newRow`: the transaction has inserted the document row itself. */
  datatype Tx = Tx(doc: DocId, session: SessionId, payload: Bytes, stage: Stage, newRow: bool)

  datatype State = State(tables: Tables, locks: map<Key, TxId>, txs: map<TxId, Tx>, returned: map<TxId, nat>)

  const INIT := State(Tables(map[], map[], map[]), map[], map[], map[])

  datatype Action =
    | Begin(t: TxId, doc: DocId, session: SessionId, payload: Bytes)
    | Ensure(t: TxId)
    | Read(t: TxId)
    | Insert(t: TxId)
    | Advance(t: TxId)
    | Commit(t: TxId)
    | Rollback(t: TxId)
    | Delete(doc: DocId)
    | Create(doc: DocId)
    | Snapshot(doc: DocId, atSeq: nat, state: Bytes)

  function OpsOf(tb: Tables, d: DocId): map<nat, Op> {
    if d in tb.ops then tb.ops[d] else map[]
  }

  function Latest(tb: Tables, d: DocId): nat {
    if d in tb.rows then tb.rows[d] else 0
  }

  predicate Free(s: State, k: Key) {
    k !in s.locks
  }

  predicate Mine(s: State, k: Key, t: TxId) {
    k in s.locks && s.locks[k] == t
  }

  function Move(s: State, t: TxId, tx: Tx): State {
    s.(txs := s.txs[t := tx])
  }

  function Lock(s: State, k: Key, t: TxId): State {
    s.(locks := s.locks[k := t])
  }

  /** The transaction ends: its locks go, and unless it committed so does everything it wrote. */
  function End(s: State, t: TxId): State {
    s.(locks := map k | k in s.locks && s.locks[k] != t :: s.locks[k], txs := s.txs - {t})
  }

  function BeginTx(shape: Shape, s: State, t: TxId, tx: Tx): Option<State> {
    if t in s.txs || t in s.returned then None
    else if !shape.Immediate? then Some(Move(s, t, tx))
    else if Free(s, Database) then Some(Lock(Move(s, t, tx), Database, t)) else None
  }

  /** INSERT ... ON CONFLICT DO NOTHING (or ON DUPLICATE KEY UPDATE): waits for another uncommitted insert of the row;
      an existing row is left alone, and locked only where the backend does so. */
  function EnsureRow(shape: Shape, s: State, t: TxId): Option<State> {
    if !shape.RowLock? || t !in s.txs || !s.txs[t].stage.Begun? then None
    else
      var tx := s.txs[t];
      var k := Row(tx.doc);
      if tx.doc in s.tables.rows && !shape.ensureLocks then Some(Move(s, t, tx.(stage := Ensured)))
      else if !Free(s, k) then None
      else Some(Lock(Move(s, t, tx.(stage := Ensured, newRow := tx.doc !in s.tables.rows)), k, t))
  }

  /** Reading latest_seq. Under row locking the read takes the row lock and fails when the row is gone; under the
      write lock a missing row is inserted instead. */
  function ReadRow(shape: Shape, s: State, t: TxId): Option<State> {
    if t !in s.txs then None
    else
      var tx := s.txs[t];
      var k := KeyOf(shape, tx.doc);
      if shape.Immediate? then
        if !tx.stage.Begun? then None
        else Some(Move(s, t, tx.(stage := ReadLatest(Latest(s.tables, tx.doc)), newRow := tx.doc !in s.tables.rows)))
      else if !tx.stage.Ensured? || !(Free(s, k) || Mine(s, k, t)) then None
      else if !tx.newRow && tx.doc !in s.tables.rows then Some(End(s, t))
      else Some(Lock(Move(s, t, tx.(stage := ReadLatest(if tx.newRow then 0 else s.tables.rows[tx.doc]))), k, t))
  }

  /** Inserting the operation; a taken primary key would fail the transaction. */
  function InsertOp(s: State, t: TxId): Option<State> {
    if t !in s.txs || !s.txs[t].stage.ReadLatest? then None
    else
      var tx := s.txs[t];
      if tx.stage.latest + 1 in OpsOf(s.tables, tx.doc) then Some(End(s, t))
      else Some(Move(s, t, tx.(stage := Inserted(tx.stage.latest))))
  }

  function AdvanceRow(s: State, t: TxId): Option<State> {
    if t !in s.txs || !s.txs[t].stage.Inserted? then None
    else Some(Move(s, t, s.txs[t].(stage := Advanced(s.txs[t].stage.latest))))
  }

  /** What the committed tables become. */
  function Written(tb: Tables, tx: Tx): Tables
    requires tx.stage.Advanced?
  {
    var n := tx.stage.latest + 1;
    tb.(rows := tb.rows[tx.doc := n],
        ops := tb.ops[tx.doc := OpsOf(tb, tx.doc)[n := Op(n, tx.session, tx.payload)]])
  }

  function CommitTx(s: State, t: TxId): Option<State> {
    if t !in s.txs || !s.txs[t].stage.Advanced? then None
    else Some(End(s, t).(tables := Written(s.tables, s.txs[t]), returned := s.returned[t := s.txs[t].stage.latest + 1]))
  }

  /** One statement, committed by itself: it waits for whoever holds the lock. */
  function DeleteRow(shape: Shape, s: State, d: DocId): Option<State> {
    if d !in s.tables.rows || !Free(s, KeyOf(shape, d)) then None
    else Some(s.(tables := Tables(s.tables.rows - {d}, s.tables.ops - {d}, s.tables.snaps - {d})))
  }

  function CreateRow(shape: Shape, s: State, d: DocId): Option<State> {
    if d in s.tables.rows || !Free(s, KeyOf(shape, d)) then None
    else Some(s.(tables := s.tables.(rows := s.tables.rows[d := 0])))
  }

  function TableSnaps(tb: Tables, d: DocId): map<nat, Bytes> {
    if d in tb.snaps then tb.snaps[d] else map[]
  }

  function SaveState(s: State, d: DocId, n: nat, state: Bytes): Option<State> {
    if d !in s.tables.rows then None
    else Some(s.(tables := s.tables.(snaps := s.tables.snaps[d := TableSnaps(s.tables, d)[n := state]])))
  }

  function Step(shape: Shape, s: State, a: Action): Option<State> {
    match a
    case Begin(t, d, session, payload) => BeginTx(shape, s, t, Tx(d, session, payload, Begun, false))
    case Ensure(t) => EnsureRow(shape, s, t)
    case Read(t) => ReadRow(shape, s, t)
    case Insert(t) => InsertOp(s, t)
    case Advance(t) => AdvanceRow(s, t)
    case Commit(t) => CommitTx(s, t)
    case Rollback(t) => if t in s.txs then Some(End(s, t)) else None
    case Delete(d) => DeleteRow(shape, s, d)
    case Create(d) => CreateRow(shape, s, d)
    case Snapshot(d, n, state) => SaveState(s, d, n, state)
  }

  function Steps(shape: Shape): (State, Action) -> Option<State> {
    (s, a) => Step(shape, s, a)
  }

  // ----- the invariant -------------------------------------------------------------------------------------------

  /** The operations of every document are numbered exactly 1..latest_seq, and nothing outlives its row. */
  ghost predicate DocGapFree(tb: Tables, d: DocId) {
    && (forall n :: n in OpsOf(tb, d) <==> 1 <= n <= Latest(tb, d))
    && (forall n :: n in OpsOf(tb, d) ==> OpsOf(tb, d)[n].seqNo == n)
    && (d in tb.ops || d in tb.snaps ==> d in tb.rows)
  }

  ghost predicate GapFree(tb: Tables) {
    forall d :: DocGapFree(tb, d)
  }

  predicate HasRead(stage: Stage) {
    stage.ReadLatest? || stage.Inserted? || stage.Advanced?
  }

  /** A transaction that has read latest_seq holds the lock and its reading is still true. */
  ghost predicate TxOk(shape: Shape, s: State, t: TxId) {
    t in s.txs ==>
      var tx := s.txs[t];
      && t !in s.returned
      && (HasRead(tx.stage) ==> Mine(s, KeyOf(shape, tx.doc), t) && tx.stage.latest == Latest(s.tables, tx.doc))
      && (tx.newRow ==> Mine(s, KeyOf(shape, tx.doc), t) && tx.doc !in s.tables.rows)
      && (shape.Immediate? ==> Mine(s, Database, t))
  }

  /** A lock is held by a live transaction on that row. */
  ghost predicate LocksOk(shape: Shape, s: State) {
    forall k :: k in s.locks ==> s.locks[k] in s.txs && k == KeyOf(shape, s.txs[s.locks[k]].doc)
  }

  ghost predicate Ok(shape: Shape, s: State) {
    GapFree(s.tables) && LocksOk(shape, s) && forall t :: TxOk(shape, s, t)
  }

  lemma MoveKeepsOk(shape: Shape, s: State, s': State, t: TxId)
    requires Ok(shape, s) && s'.tables == s.tables && s'.returned == s.returned
    requires forall u :: u != t ==> (u in s'.txs <==> u in s.txs) && (u in s.txs ==> s'.txs[u] == s.txs[u])
    requires forall k :: (k in s'.locks && s'.locks[k] != t) ==> k in s.locks && s.locks[k] == s'.locks[k]
    requires forall k :: k in s.locks && s.locks[k] != t ==> k in s'.locks && s'.locks[k] == s.locks[k]
    requires TxOk(shape, s', t)
    requires forall k :: k in s'.locks && s'.locks[k] == t ==> t in s'.txs && k == KeyOf(shape, s'.txs[t].doc)
    ensures Ok(shape, s')
  {
    forall u ensures TxOk(shape, s', u) {
      assert TxOk(shape, s, u);
    }
  }

  lemma EndKeepsOk(shape: Shape, s: State, t: TxId)
    requires Ok(shape, s)
    ensures Ok(shape, End(s, t))
  {
    MoveKeepsOk(shape, s, End(s, t), t);
  }

  lemma BeginKeepsOk(shape: Shape, s: State, t: TxId, tx: Tx)
    requires Ok(shape, s) && tx.stage.Begun? && !tx.newRow && BeginTx(shape, s, t, tx).Some?
    ensures Ok(shape, BeginTx(shape, s, t, tx).value)
  {
    MoveKeepsOk(shape, s, BeginTx(shape, s, t, tx).value, t);
  }

  lemma EnsureKeepsOk(shape: Shape, s: State, t: TxId)
    requires Ok(shape, s) && EnsureRow(shape, s, t).Some?
    ensures Ok(shape, EnsureRow(shape, s, t).value)
  {
    assert TxOk(shape, s, t);
    MoveKeepsOk(shape, s, EnsureRow(shape, s, t).value, t);
  }

  lemma ReadKeepsOk(shape: Shape, s: State, t: TxId)
    requires Ok(shape, s) && ReadRow(shape, s, t).Some?
    ensures Ok(shape, ReadRow(shape, s, t).value)
  {
    assert TxOk(shape, s, t);
    MoveKeepsOk(shape, s, ReadRow(shape, s, t).value, t);
  }

  lemma InsertKeepsOk(shape: Shape, s: State, t: TxId)
    requires Ok(shape, s) && InsertOp(s, t).Some?
    ensures Ok(shape, InsertOp(s, t).value)
  {
    assert TxOk(shape, s, t);
    MoveKeepsOk(shape, s, InsertOp(s, t).value, t);
  }

  lemma AdvanceKeepsOk(shape: Shape, s: State, t: TxId)
    requires Ok(shape, s) && AdvanceRow(s, t).Some?
    ensures Ok(shape, AdvanceRow(s, t).value)
  {
    assert TxOk(shape, s, t);
    MoveKeepsOk(shape, s, AdvanceRow(s, t).value, t);
  }

  /** Changing document d's rows is safe for the others when nobody else holds d's lock. */
  lemma TableChangeKeepsTx(shape: Shape, s: State, s': State, d: DocId, u: TxId)
    requires Ok(shape, s) && TxOk(shape, s, u)
    requires u in s'.txs ==> u in s.txs && s'.txs[u] == s.txs[u] && u !in s'.returned
    requires u in s'.txs ==> forall k :: Mine(s, k, u) ==> Mine(s', k, u)
    requires forall e :: e != d ==>
                           Latest(s'.tables, e) == Latest(s.tables, e) && (e in s'.tables.rows <==> e in s.tables.rows)
    requires u in s'.txs ==> !Mine(s, KeyOf(shape, d), u)
    ensures TxOk(shape, s', u)
  {
  }

  lemma SameDocGapFree(tb: Tables, tb': Tables, d: DocId)
    requires GapFree(tb) && OpsOf(tb', d) == OpsOf(tb, d) && Latest(tb', d) == Latest(tb, d)
    requires d in tb'.ops || d in tb'.snaps ==> d in tb'.rows
    ensures DocGapFree(tb', d)
  {
    assert DocGapFree(tb, d);
  }

  lemma WrittenGapFree(tb: Tables, tx: Tx)
    requires GapFree(tb) && tx.stage.Advanced? && tx.stage.latest == Latest(tb, tx.doc)
    ensures GapFree(Written(tb, tx))
  {
    var tb' := Written(tb, tx);
    forall d ensures DocGapFree(tb', d) {
      if d == tx.doc {
        assert DocGapFree(tb, d);
        assert OpsOf(tb', d) == OpsOf(tb, d)[tx.stage.latest + 1 := Op(tx.stage.latest + 1, tx.session, tx.payload)];
      } else {
        assert DocGapFree(tb, d);
        SameDocGapFree(tb, tb', d);
      }
    }
  }

  lemma CommitKeepsOk(shape: Shape, s: State, t: TxId)
    requires Ok(shape, s) && CommitTx(s, t).Some?
    ensures Ok(shape, CommitTx(s, t).value)
  {
    var s' := CommitTx(s, t).value;
    assert TxOk(shape, s, t);
    WrittenGapFree(s.tables, s.txs[t]);
    forall u ensures TxOk(shape, s', u) {
      assert TxOk(shape, s, u);
      TableChangeKeepsTx(shape, s, s', s.txs[t].doc, u);
    }
  }

  lemma DeleteKeepsOk(shape: Shape, s: State, d: DocId)
    requires Ok(shape, s) && DeleteRow(shape, s, d).Some?
    ensures Ok(shape, DeleteRow(shape, s, d).value)
  {
    var s' := DeleteRow(shape, s, d).value;
    forall e ensures DocGapFree(s'.tables, e) {
      assert DocGapFree(s.tables, e);
      if e != d { SameDocGapFree(s.tables, s'.tables, e); }
    }
    forall u ensures TxOk(shape, s', u) {
      assert TxOk(shape, s, u);
      TableChangeKeepsTx(shape, s, s', d, u);
    }
  }

  lemma CreateKeepsOk(shape: Shape, s: State, d: DocId)
    requires Ok(shape, s) && CreateRow(shape, s, d).Some?
    ensures Ok(shape, CreateRow(shape, s, d).value)
  {
    var s' := CreateRow(shape, s, d).value;
    forall e ensures DocGapFree(s'.tables, e) {
      assert DocGapFree(s.tables, e);
      SameDocGapFree(s.tables, s'.tables, e);
    }
    forall u ensures TxOk(shape, s', u) {
      assert TxOk(shape, s, u);
      TableChangeKeepsTx(shape, s, s', d, u);
    }
  }

  lemma SnapshotKeepsOk(shape: Shape, s: State, d: DocId, n: nat, state: Bytes)
    requires Ok(shape, s) && SaveState(s, d, n, state).Some?
    ensures Ok(shape, SaveState(s, d, n, state).value)
  {
    var s' := SaveState(s, d, n, state).value;
    forall e ensures DocGapFree(s'.tables, e) {
      assert DocGapFree(s.tables, e);
      SameDocGapFree(s.tables, s'.tables, e);
    }
    forall u ensures TxOk(shape, s', u) {
      assert TxOk(shape, s, u);
    }
  }

  lemma StepKeepsOk(shape: Shape, s: State, a: Action)
    requires Ok(shape, s) && Step(shape, s, a).Some?
    ensures Ok(shape, Step(shape, s, a).value)
  {
    match a
    case Begin(t, d, session, payload) => BeginKeepsOk(shape, s, t, Tx(d, session, payload, Begun, false));
    case Ensure(t) => EnsureKeepsOk(shape, s, t);
    case Read(t) => ReadKeepsOk(shape, s, t);
    case Insert(t) => InsertKeepsOk(shape, s, t);
    case Advance(t) => AdvanceKeepsOk(shape, s, t);
    case Commit(t) => CommitKeepsOk(shape, s, t);
    case Rollback(t) => EndKeepsOk(shape, s, t);
    case Delete(d) => DeleteKeepsOk(shape, s, d);
    case Create(d) => CreateKeepsOk(shape, s, d);
    case Snapshot(d, n, state) => SnapshotKeepsOk(shape, s, d, n, state);
  }

  lemma ReachableOk(shape: Shape, acts: seq<Action>)
    ensures Exec(Steps(shape), INIT, acts).Some? ==> Ok(shape, Exec(Steps(shape), INIT, acts).value)
  {
    forall m: State, a: Action | Ok(shape, m) && Steps(shape)(m, a).Some?
      ensures Ok(shape, Steps(shape)(m, a).value)
    {
      StepKeepsOk(shape, m, a);
    }
    Invariance(Steps(shape), (s: State) => Ok(shape, s), INIT, acts);
  }

  // ----- refinement ----------------------------------------------------------------------------------------------

  /** The log a document's operation rows spell out in order of their sequence numbers. */
  function TableLog(tb: Tables, d: DocId): seq<Op> {
    seq(Latest(tb, d), i requires 0 <= i < Latest(tb, d) =>
      if i + 1 in OpsOf(tb, d) then OpsOf(tb, d)[i + 1] else Op(0, "", []))
  }

  function Docs(tb: Tables): map<DocId, Rec> {
    map d | d in tb.rows :: Rec(TableLog(tb, d), TableSnaps(tb, d))
  }

  function Abstract(s: State): Store {
    Store(Docs(s.tables), s.returned)
  }

  /** Only document d's rows changed, and it is still there. */
  lemma DocsUpdated(tb: Tables, tb': Tables, d: DocId, r: Rec)
    requires tb'.rows.Keys == tb.rows.Keys + {d}
    requires forall e :: e != d ==>
                           Latest(tb', e) == Latest(tb, e) && OpsOf(tb', e) == OpsOf(tb, e)
                             && TableSnaps(tb', e) == TableSnaps(tb, e)
    requires TableLog(tb', d) == r.log && TableSnaps(tb', d) == r.snaps
    ensures Docs(tb') == Docs(tb)[d := r]
  {
    forall e | e in tb.rows && e != d
      ensures TableLog(tb', e) == TableLog(tb, e)
    {
    }
  }

  /** The atomic operation a step performs, if any: an append takes effect at its commit. */
  function AtomOf(s: State, a: Action): Option<Atomic> {
    match a
    case Commit(t) => if t in s.txs then Some(AppendOp(t, s.txs[t].doc, s.txs[t].session, s.txs[t].payload)) else None
    case Delete(d) => Some(DeleteDocument(d))
    case Create(d) => Some(CreateDocument(d))
    case Snapshot(d, n, state) => Some(SaveSnapshot(d, n, state))
    case _ => None
  }

  lemma WrittenLog(tb: Tables, tx: Tx)
    requires GapFree(tb) && tx.stage.Advanced? && tx.stage.latest == Latest(tb, tx.doc)
    ensures TableLog(Written(tb, tx), tx.doc)
            == TableLog(tb, tx.doc) + [Op(tx.stage.latest + 1, tx.session, tx.payload)]
  {
    assert DocGapFree(tb, tx.doc);
    assert OpsOf(Written(tb, tx), tx.doc)
           == OpsOf(tb, tx.doc)[tx.stage.latest + 1 := Op(tx.stage.latest + 1, tx.session, tx.payload)];
  }

  /** A committed append extends the document's log by its op and changes nothing else. */
  lemma WrittenDocs(tb: Tables, tx: Tx)
    requires GapFree(tb) && tx.stage.Advanced? && tx.stage.latest == Latest(tb, tx.doc)
    ensures |LogOf(Docs(tb), tx.doc)| == tx.stage.latest
    ensures Docs(Written(tb, tx))
            == Docs(tb)[tx.doc := Rec(LogOf(Docs(tb), tx.doc) + [Op(tx.stage.latest + 1, tx.session, tx.payload)],
                                                            SnapsOf(Docs(tb), tx.doc))]
  {
    assert DocGapFree(tb, tx.doc);
    WrittenLog(tb, tx);
    assert LogOf(Docs(tb), tx.doc) == TableLog(tb, tx.doc);
    assert SnapsOf(Docs(tb), tx.doc) == TableSnaps(tb, tx.doc);
    DocsUpdated(tb, Written(tb, tx), tx.doc,
                Rec(TableLog(tb, tx.doc) + [Op(tx.stage.latest + 1, tx.session, tx.payload)], TableSnaps(tb, tx.doc)));
  }

  lemma CommitRefines(shape: Shape, s: State, t: TxId)
    requires Ok(shape, s) && CommitTx(s, t).Some?
    ensures AtomicStep(Abstract(s), AppendOp(t, s.txs[t].doc, s.txs[t].session, s.txs[t].payload))
            == Some(Abstract(CommitTx(s, t).value))
  {
    assert TxOk(shape, s, t);
    WrittenDocs(s.tables, s.txs[t]);
  }

  lemma DeleteRefines(shape: Shape, s: State, d: DocId)
    requires DeleteRow(shape, s, d).Some?
    ensures AtomicStep(Abstract(s), DeleteDocument(d)) == Some(Abstract(DeleteRow(shape, s, d).value))
  {
    var s' := DeleteRow(shape, s, d).value;
    forall e | e in s'.tables.rows
      ensures TableLog(s'.tables, e) == TableLog(s.tables, e)
    {
    }
    assert Abstract(s').docs == Abstract(s).docs - {d};
  }

  lemma CreateRefines(shape: Shape, s: State, d: DocId)
    requires Ok(shape, s) && CreateRow(shape, s, d).Some?
    ensures AtomicStep(Abstract(s), CreateDocument(d)) == Some(Abstract(CreateRow(shape, s, d).value))
  {
    var s' := CreateRow(shape, s, d).value;
    assert DocGapFree(s.tables, d);
    DocsUpdated(s.tables, s'.tables, d, Rec([], map[]));
  }

  lemma SnapshotRefines(s: State, d: DocId, n: nat, state: Bytes)
    requires SaveState(s, d, n, state).Some?
    ensures AtomicStep(Abstract(s), SaveSnapshot(d, n, state)) == Some(Abstract(SaveState(s, d, n, state).value))
  {
    var s' := SaveState(s, d, n, state).value;
    DocsUpdated(s.tables, s'.tables, d, Rec(TableLog(s.tables, d), TableSnaps(s.tables, d)[n := state]));
  }

  /** Every step is either invisible or one atomic operation. */
  lemma StepRefines(shape: Shape, s: State, a: Action)
    requires Ok(shape, s) && Step(shape, s, a).Some?
    ensures match AtomOf(s, a)
            case None => Abstract(Step(shape, s, a).value) == Abstract(s)
            case Some(atom) => AtomicStep(Abstract(s), atom) == Some(Abstract(Step(shape, s, a).value))
  {
    match a
    case Commit(t) => CommitRefines(shape, s, t);
    case Delete(d) => DeleteRefines(shape, s, d);
    case Create(d) => CreateRefines(shape, s, d);
    case Snapshot(d, n, state) => SnapshotRefines(s, d, n, state);
    case _ => assert Step(shape, s, a).value.tables == s.tables && Step(shape, s, a).value.returned == s.returned;
  }

  /** Every interleaving of transactions, under either shape, is a run of the atomic store that ends in the same
      documents and gave every committed append the same number. */
  lemma {:induction false} RunsRefineAtomicStore(shape: Shape, acts: seq<Action>, s: State) returns (atoms: seq<Atomic>)
    requires Exec(Steps(shape), INIT, acts) == Some(s)
    ensures Exec(AtomicStep, Store(map[], map[]), atoms) == Some(Abstract(s))
    decreases |acts|
  {
    if acts == [] {
      atoms := [];
      assert Abstract(INIT).docs == map[];
    } else {
      var before, a := acts[..|acts| - 1], acts[|acts| - 1];
      var m := Exec(Steps(shape), INIT, before).value;
      atoms := RunsRefineAtomicStore(shape, before, m);
      ReachableOk(shape, before);
      StepRefines(shape, m, a);
      if AtomOf(m, a).Some? {
        Then(AtomicStep, Store(map[], map[]), atoms, Abstract(m), AtomOf(m, a).value, Abstract(s));
        atoms := atoms + [AtomOf(m, a).value];
      }
    }
  }

  /** In every reachable state the committed operations of every document are numbered exactly 1..latest_seq, whatever
      was rolled back or deleted on the way, and no append ever met a taken number. */
  lemma AppendsAreGapFree(shape: Shape, acts: seq<Action>, s: State)
    requires Exec(Steps(shape), INIT, acts) == Some(s)
    ensures forall d :: DocGapFree(s.tables, d)
    ensures forall t :: t in s.txs && s.txs[t].stage.ReadLatest? ==>
                          s.txs[t].stage.latest + 1 !in OpsOf(s.tables, s.txs[t].doc)
    ensures forall t, u :: t in s.txs && u in s.txs && t != u && HasRead(s.txs[t].stage) && HasRead(s.txs[u].stage) ==>
                             s.txs[t].doc != s.txs[u].doc
  {
    ReachableOk(shape, acts);
    forall t | t in s.txs && s.txs[t].stage.ReadLatest?
      ensures s.txs[t].stage.latest + 1 !in OpsOf(s.tables, s.txs[t].doc)
    {
      assert TxOk(shape, s, t) && DocGapFree(s.tables, s.txs[t].doc);
    }
    forall t, u | t in s.txs && u in s.txs && t != u && HasRead(s.txs[t].stage) && HasRead(s.txs[u].stage)
      ensures s.txs[t].doc != s.txs[u].doc
    {
      assert TxOk(shape, s, t) && TxOk(shape, s, u);
    }
  }

  // ----- every atomic operation can be run ------------------------------------------------------------------------

  lemma Go(shape: Shape, s0: State, acts: seq<Action>, s: State, a: Action) returns (more: seq<Action>, s': State)
    requires Exec(Steps(shape), s0, acts) == Some(s) && Ok(shape, s) && Step(shape, s, a).Some?
    ensures Exec(Steps(shape), s0, more) == Some(s') && Step(shape, s, a) == Some(s') && Ok(shape, s')
  {
    s' := Step(shape, s, a).value;
    more := acts + [a];
    Then(Steps(shape), s0, acts, s, a, s');
    StepKeepsOk(shape, s, a);
  }

  /** Nothing but transaction t happened since s0, and the only lock it may have is its document's. */
  ghost predicate Alone(shape: Shape, s0: State, s: State, t: TxId, tx: Tx) {
    var key := KeyOf(shape, tx.doc);
    && t !in s0.txs && key !in s0.locks
    && s.tables == s0.tables && s.returned == s0.returned && s.txs == s0.txs[t := tx]
    && (s.locks == s0.locks || s.locks == s0.locks[key := t])
  }

  lemma BeginsAlone(shape: Shape, s: State, t: TxId, tx: Tx)
    requires t !in s.txs && t !in s.returned && Free(s, KeyOf(shape, tx.doc))
    ensures BeginTx(shape, s, t, tx).Some? && Alone(shape, s, BeginTx(shape, s, t, tx).value, t, tx)
  {
  }

  lemma EnsuresAlone(shape: Shape, s0: State, s: State, t: TxId, tx: Tx) returns (tx': Tx)
    requires shape.RowLock? && Alone(shape, s0, s, t, tx) && tx.stage.Begun? && !tx.newRow && s.locks == s0.locks
    ensures tx' == tx.(stage := Ensured, newRow := tx.doc !in s0.tables.rows)
    ensures EnsureRow(shape, s, t).Some? && Alone(shape, s0, EnsureRow(shape, s, t).value, t, tx')
  {
    tx' := tx.(stage := Ensured, newRow := tx.doc !in s0.tables.rows);
    assert s.txs[t := tx'] == s0.txs[t := tx'];
  }

  lemma ReadsAlone(shape: Shape, s0: State, s: State, t: TxId, tx: Tx) returns (tx': Tx)
    requires Ok(shape, s0) && Alone(shape, s0, s, t, tx)
    requires if shape.Immediate? then tx.stage.Begun? else tx.stage.Ensured? && tx.newRow == (tx.doc !in s0.tables.rows)
    ensures tx' == tx.(stage := ReadLatest(Latest(s0.tables, tx.doc)), newRow := tx.doc !in s0.tables.rows)
    ensures ReadRow(shape, s, t).Some? && Alone(shape, s0, ReadRow(shape, s, t).value, t, tx')
  {
    tx' := tx.(stage := ReadLatest(Latest(s0.tables, tx.doc)), newRow := tx.doc !in s0.tables.rows);
    assert s.txs[t := tx'] == s0.txs[t := tx'];
    var key := KeyOf(shape, tx.doc);
    assert s0.locks[key := t][key := t] == s0.locks[key := t];
  }

  /** From the beginning to the reading of latest_seq. */
  lemma ReadingRuns(shape: Shape, s: State, t: TxId, d: DocId, session: SessionId, payload: Bytes)
    returns (acts: seq<Action>, s': State, tx: Tx)
    requires Ok(shape, s) && t !in s.txs && t !in s.returned && Free(s, KeyOf(shape, d))
    ensures Exec(Steps(shape), s, acts) == Some(s') && Ok(shape, s') && Alone(shape, s, s', t, tx)
    ensures tx.doc == d && tx.session == session && tx.payload == payload && tx.stage == ReadLatest(Latest(s.tables, d))
  {
    var tx0 := Tx(d, session, payload, Begun, false);
    BeginsAlone(shape, s, t, tx0);
    acts, s' := Go(shape, s, [], s, Begin(t, d, session, payload));
    if shape.RowLock? {
      tx0 := EnsuresAlone(shape, s, s', t, tx0);
      acts, s' := Go(shape, s, acts, s', Ensure(t));
    }
    tx := ReadsAlone(shape, s, s', t, tx0);
    acts, s' := Go(shape, s, acts, s', Read(t));
  }

  lemma WritesAlone(shape: Shape, s0: State, s: State, t: TxId, tx: Tx) returns (tx1: Tx, tx2: Tx)
    requires Ok(shape, s0) && Alone(shape, s0, s, t, tx) && tx.stage == ReadLatest(Latest(s0.tables, tx.doc))
    ensures tx1 == tx.(stage := Inserted(tx.stage.latest)) && tx2 == tx.(stage := Advanced(tx.stage.latest))
    ensures InsertOp(s, t).Some? && Alone(shape, s0, InsertOp(s, t).value, t, tx1)
    ensures AdvanceRow(InsertOp(s, t).value, t).Some?
    ensures Alone(shape, s0, AdvanceRow(InsertOp(s, t).value, t).value, t, tx2)
  {
    assert DocGapFree(s0.tables, tx.doc);
    tx1, tx2 := tx.(stage := Inserted(tx.stage.latest)), tx.(stage := Advanced(tx.stage.latest));
    assert s.txs[t := tx1] == s0.txs[t := tx1] && s0.txs[t := tx1][t := tx2] == s0.txs[t := tx2];
  }

  /** From there to the commit. */
  lemma CommittingRuns(shape: Shape, s0: State, acts: seq<Action>, s: State, t: TxId, tx: Tx)
    returns (more: seq<Action>, s': State)
    requires Ok(shape, s0) && Exec(Steps(shape), s0, acts) == Some(s) && Ok(shape, s) && Alone(shape, s0, s, t, tx)
    requires tx.stage == ReadLatest(Latest(s0.tables, tx.doc))
    ensures Exec(Steps(shape), s0, more) == Some(s') && s'.txs == s0.txs
    ensures AtomicStep(Abstract(s0), AppendOp(t, tx.doc, tx.session, tx.payload)) == Some(Abstract(s'))
  {
    var tx1, tx2 := WritesAlone(shape, s0, s, t, tx);
    var acts1, s1 := Go(shape, s0, acts, s, Insert(t));
    var acts2, s2 := Go(shape, s0, acts1, s1, Advance(t));
    assert Abstract(s2) == Abstract(s0);
    CommitRefines(shape, s2, t);
    more, s' := Go(shape, s0, acts2, s2, Commit(t));
    assert s'.txs == s2.txs - {t} && s0.txs[t := tx2] - {t} == s0.txs;
  }

  /** The lock an operation needs, if any, is free, and its transaction is new. */
  ghost predicate Unhindered(shape: Shape, s: State, atom: Atomic) {
    match atom
    case AppendOp(t, d, _, _) => t !in s.txs && Free(s, KeyOf(shape, d))
    case DeleteDocument(d) => Free(s, KeyOf(shape, d))
    case CreateDocument(d) => Free(s, KeyOf(shape, d))
    case SaveSnapshot(_, _, _) => true
  }

  /** The other direction of the refinement: from every reachable state, under every shape, whatever the atomic store
      allows can be run, statement by statement, once nobody holds the lock; other transactions stay where they are. */
  lemma AtomicOperationsRun(shape: Shape, s: State, atom: Atomic, end: Store) returns (acts: seq<Action>, s': State)
    requires Ok(shape, s) && AtomicStep(Abstract(s), atom) == Some(end) && Unhindered(shape, s, atom)
    ensures Exec(Steps(shape), s, acts) == Some(s') && Abstract(s') == end && s'.txs == s.txs
  {
    match atom
    case AppendOp(t, d, session, payload) =>
      var acts1, s1, tx := ReadingRuns(shape, s, t, d, session, payload);
      acts, s' := CommittingRuns(shape, s, acts1, s1, t, tx);
    case DeleteDocument(d) =>
      acts, s' := Go(shape, s, [], s, Delete(d));
      DeleteRefines(shape, s, d);
    case CreateDocument(d) =>
      acts, s' := Go(shape, s, [], s, Create(d));
      CreateRefines(shape, s, d);
    case SaveSnapshot(d, n, state) =>
      acts, s' := Go(shape, s, [], s, Snapshot(d, n, state));
      SnapshotRefines(s, d, n, state);
  }
}
