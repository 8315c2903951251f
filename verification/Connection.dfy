/** One client connection as the subscribers of one document see it: its bounded send queue, its recorded session and
    the progress of its reader. A connection serves many documents; their frames share the queue as `Other`. */
module Connection {
  import opened Core
  import opened Replay

  datatype Frame = Live(op: Op) | Catchup(batch: Batch) | Other

  const SEND_QUEUE_SIZE := 256

  /** What the reader goroutine is doing for this document: nothing, having recorded the session of a subscribe,
      having entered the subscriber set, handing over the batches of a replay, or having ended. */
  datatype Reader =
    | Idle
    | Recorded(last: int)
    | Joined(last: int)
    | Replaying(last: int, rest: seq<Batch>)
    | Gone

  /** The fields after `session` are history: every session ever recorded, every frame ever offered to the queue,
      how often the connection was closed, the lowest cursor of a replay that returned without error, the cursor of the
      last subscribe and whether the log could not be read for it, the number of
      entries already handed out when the connection entered the subscriber set, and for each entry that reached it
      since then the session that was recorded at that moment. */
  datatype Conn = Conn(
    open: bool,
    queue: seq<Frame>,
    written: seq<Frame>,
    reader: Reader,
    session: Option<SessionId>,
    sessions: set<SessionId>,
    offered: seq<Frame>,
    closes: nat,
    caught: Option<int>,
    asked: Option<int>,
    unread: bool,
    joinedAt: Option<nat>,
    inForce: map<nat, SessionId>)

  const NEW_CONN := Conn(true, [], [], Idle, None, {}, [], 0, None, None, false, None, map[])

  /** Closing happens once. */
  function Close(k: Conn): Conn {
    if k.open then k.(open := false, closes := k.closes + 1) else k
  }

  /** What offering a message does to a queue and its connection: (queue, still open). It is taken while there is room,
      and a full queue closes the connection. On a closed connection `take` says whether it is still taken: both
      outcomes are possible. */
  function Offer<M>(queue: seq<M>, open: bool, m: M, take: bool): (seq<M>, bool) {
    if |queue| < SEND_QUEUE_SIZE && (open || take) then (queue + [m], open) else (queue, false)
  }

  /** Offering a frame. */
  function Enqueue(k: Conn, f: Frame, take: bool): Conn {
    var (queue, open) := Offer(k.queue, k.open, f, take);
    var k' := k.(offered := k.offered + [f], queue := queue);
    if open then k' else Close(k')
  }

  /** The enqueue reports an error: the queue of an open connection was full. */
  predicate Overflows(k: Conn) {
    k.open && |k.queue| >= SEND_QUEUE_SIZE
  }

  /** The write loop takes the next frame and writes it. */
  function WriteNext(k: Conn): Conn
    requires k.queue != []
  {
    k.(queue := k.queue[1..], written := k.written + [k.queue[0]])
  }

  // ----- what a connection has received --------------------------------------------------------------------------

  /** Written or still queued. */
  function Output(k: Conn): seq<Frame> {
    k.written + k.queue
  }

  predicate Brings(f: Frame, op: Op) {
    match f case Live(o) => o == op case Catchup(b) => op in b.ops case Other => false
  }

  ghost predicate Carried(fs: seq<Frame>, op: Op) {
    exists i :: 0 <= i < |fs| && Brings(fs[i], op)
  }

  function LiveOps(fs: seq<Frame>): seq<Op> {
    if fs == [] then []
    else
      var f := fs[|fs| - 1];
      LiveOps(fs[..|fs| - 1]) + if f.Live? then [f.op] else []
  }

  /** The entry was authored under the session recorded when it reached the connection. */
  predicate Echo(inForce: map<nat, SessionId>, op: Op) {
    op.seqNo in inForce && inForce[op.seqNo] == op.session
  }

  function Without(ops: seq<Op>, inForce: map<nat, SessionId>): seq<Op> {
    if ops == [] then []
    else
      var op := ops[|ops| - 1];
      Without(ops[..|ops| - 1], inForce) + if Echo(inForce, op) then [] else [op]
  }

  lemma CarriedGrows(fs: seq<Frame>, f: Frame, op: Op)
    ensures Carried(fs + [f], op) <==> Carried(fs, op) || Brings(f, op)
  {
    if Carried(fs, op) {
      var i :| 0 <= i < |fs| && Brings(fs[i], op);
      assert (fs + [f])[i] == fs[i];
    }
    if Brings(f, op) {
      assert (fs + [f])[|fs|] == f;
    }
  }

  lemma LiveOpsSnoc(fs: seq<Frame>, f: Frame)
    ensures LiveOps(fs + [f]) == LiveOps(fs) + if f.Live? then [f.op] else []
  {
    assert (fs + [f])[..|fs|] == fs;
  }

  lemma WithoutSnoc(ops: seq<Op>, op: Op, inForce: map<nat, SessionId>)
    ensures Without(ops + [op], inForce) == Without(ops, inForce) + if Echo(inForce, op) then [] else [op]
  {
    assert (ops + [op])[..|ops|] == ops;
  }

  lemma {:induction false} WithoutIrrelevant(ops: seq<Op>, inForce: map<nat, SessionId>, n: nat, session: SessionId)
    requires forall i :: 0 <= i < |ops| ==> ops[i].seqNo != n
    ensures Without(ops, inForce[n := session]) == Without(ops, inForce)
    decreases |ops|
  {
    if ops != [] {
      WithoutIrrelevant(ops[..|ops| - 1], inForce, n, session);
    }
  }

  // ----- the invariant of one connection -------------------------------------------------------------------------

  ghost predicate QueueOk(k: Conn) {
    && |k.queue| <= SEND_QUEUE_SIZE
    && k.closes == (if k.open then 0 else 1)
    && (k.open ==> Output(k) == k.offered)
  }

  ghost predicate SessionOk(k: Conn, inHub: bool) {
    && (k.session.Some? ==> k.session.value in k.sessions)
    && (inHub || k.reader.Recorded? ==> k.session.Some?)
    && (k.reader.Joined? || k.reader.Replaying? ==> inHub)
    && (inHub ==> k.joinedAt.Some? && !k.reader.Gone?)
    && (k.reader.Gone? ==> !k.open)
    && (k.open && !inHub ==> k.caught.None? && k.joinedAt.None?)
  }

  /** What a reader owes: it works at the cursor it was asked for, it has batches to hand over while it replays, and
      when it is done, and the log could be read, the connection has caught up from that cursor. */
  ghost predicate ReaderOk(k: Conn, inHub: bool) {
    && (k.reader.Recorded? || k.reader.Joined? || k.reader.Replaying? ==> k.asked == Some(k.reader.last))
    && (k.reader.Replaying? ==> k.reader.rest != [])
    && (inHub ==> k.asked.Some?)
    && (k.open && inHub && k.reader.Idle? && !k.unread ==> k.caught.Some? && k.caught.value <= k.asked.value)
  }

  /** Entry n reached the connection, was withheld as an echo, or has not been handed out yet. */
  ghost predicate Handled(log: seq<Op>, handed: nat, k: Conn, n: int)
    requires 1 <= n <= |log|
  {
    Carried(Output(k), log[n - 1]) || Echo(k.inForce, log[n - 1]) || n > handed
  }

  ghost predicate CatchUp(log: seq<Op>, handed: nat, k: Conn) {
    && (k.caught.Some? ==> forall n :: 1 <= n <= |log| && n > k.caught.value ==> Handled(log, handed, k, n))
    && (k.reader.Replaying? ==>
          forall n :: 1 <= n <= |log| && n > k.reader.last ==>
                        Handled(log, handed, k, n) || log[n - 1] in Payloads(k.reader.rest))
  }

  /** One of the connection's sessions was in force for every entry that reached it. */
  ghost predicate InForceOk(log: seq<Op>, from: nat, to: int, inForce: map<nat, SessionId>, sessions: set<SessionId>)
    requires to <= |log|
  {
    forall i :: from <= i < to ==> log[i].seqNo in inForce && inForce[log[i].seqNo] in sessions
  }

  /** The live messages are the entries handed out since the connection joined, in order, less its echoes. */
  ghost predicate LiveOk(log: seq<Op>, handed: nat, k: Conn) {
    && (k.joinedAt.None? ==> LiveOps(Output(k)) == [])
    && (k.joinedAt.Some? ==>
          && k.joinedAt.value <= handed <= |log|
          && LiveOps(Output(k)) == Without(log[k.joinedAt.value..handed], k.inForce)
          && InForceOk(log, k.joinedAt.value, handed, k.inForce, k.sessions))
  }

  /** `handed` is how many entries of the log have been handed out as far as this connection is concerned: all, or all
      but the one being broadcast. */
  ghost predicate ConnOk(log: seq<Op>, inHub: bool, handed: nat, k: Conn) {
    && QueueOk(k) && SessionOk(k, inHub) && ReaderOk(k, inHub) && handed <= |log|
    && (k.open ==> CatchUp(log, handed, k) && LiveOk(log, handed, k))
  }

  // ----- every kind of step keeps it -----------------------------------------------------------------------------

  lemma NewConnOk(log: seq<Op>, handed: nat)
    requires handed <= |log|
    ensures ConnOk(log, false, handed, NEW_CONN)
  {
  }

  lemma CloseKeeps(log: seq<Op>, inHub: bool, handed: nat, k: Conn)
    requires ConnOk(log, inHub, handed, k)
    ensures ConnOk(log, inHub, handed, Close(k))
  {
  }

  lemma EnqueueOutput(k: Conn, f: Frame, take: bool)
    requires QueueOk(k)
    ensures QueueOk(Enqueue(k, f, take))
    ensures Enqueue(k, f, take).open ==> k.open && Output(Enqueue(k, f, take)) == Output(k) + [f]
    ensures Enqueue(k, f, take).open <==> k.open && !Overflows(k)
  {
    assert k.written + (k.queue + [f]) == k.written + k.queue + [f];
  }

  /** A frame that is not a live message. */
  lemma EnqueueKeeps(log: seq<Op>, inHub: bool, handed: nat, k: Conn, f: Frame, take: bool)
    requires ConnOk(log, inHub, handed, k) && !f.Live?
    ensures ConnOk(log, inHub, handed, Enqueue(k, f, take))
  {
    var k' := Enqueue(k, f, take);
    EnqueueOutput(k, f, take);
    if k'.open {
      LiveOpsSnoc(Output(k), f);
      forall n | 1 <= n <= |log| && Handled(log, handed, k, n)
        ensures Handled(log, handed, k', n)
      {
        CarriedGrows(Output(k), f, log[n - 1]);
      }
    }
  }

  lemma WriteKeeps(log: seq<Op>, inHub: bool, handed: nat, k: Conn)
    requires ConnOk(log, inHub, handed, k) && k.queue != []
    ensures ConnOk(log, inHub, handed, WriteNext(k))
  {
    assert Output(WriteNext(k)) == Output(k);
    forall n | 1 <= n <= |log| && Handled(log, handed, k, n)
      ensures Handled(log, handed, WriteNext(k), n)
    {
    }
  }

  /** The first region of a subscribe records the session. */
  function Subscribing(k: Conn, session: SessionId, last: int): Conn {
    k.(session := Some(session), sessions := k.sessions + {session}, reader := Recorded(last),
       asked := Some(last), unread := false)
  }

  /** The first region of a sync records it where none is. */
  function Syncing(k: Conn, session: SessionId): Conn {
    k.(session := Some(session), sessions := k.sessions + {session})
  }

  lemma RecordKeeps(log: seq<Op>, inHub: bool, handed: nat, k: Conn, k': Conn, session: SessionId)
    requires ConnOk(log, inHub, handed, k) && k.reader.Idle?
    requires (k' == Syncing(k, session) && k.session.None?) || exists last :: k' == Subscribing(k, session, last)
    ensures ConnOk(log, inHub, handed, k')
  {
    assert Output(k') == Output(k);
    forall n | 1 <= n <= |log| && Handled(log, handed, k, n)
      ensures Handled(log, handed, k', n)
    {
    }
  }

  /** Entering the subscriber set; re-entering changes nothing. */
  function Joining(k: Conn, inHub: bool, handed: nat): Conn
    requires k.reader.Recorded?
  {
    k.(reader := Joined(k.reader.last),
       joinedAt := if inHub then k.joinedAt else Some(handed),
       inForce := if inHub then k.inForce else map[])
  }

  lemma JoinKeeps(log: seq<Op>, inHub: bool, handed: nat, k: Conn)
    requires ConnOk(log, inHub, handed, k) && k.reader.Recorded?
    ensures ConnOk(log, true, handed, Joining(k, inHub, handed))
  {
    var k' := Joining(k, inHub, handed);
    assert Output(k') == Output(k);
    if k.open && !inHub {
      assert log[handed..handed] == [];
    }
    forall n | inHub && 1 <= n <= |log| && Handled(log, handed, k, n)
      ensures Handled(log, handed, k', n)
    {
    }
  }

  lemma InSince(log: seq<Op>, last: int, n: int)
    requires 1 <= n <= |log| && n > last
    ensures log[n - 1] in Since(log, last)
  {
    if last > 0 {
      assert log[last..][n - 1 - last] == log[n - 1];
    }
  }

  /** Reading the log after joining: everything above the cursor is in the batches to come. */
  lemma ReadLogKeeps(log: seq<Op>, handed: nat, k: Conn, size: nat)
    requires ConnOk(log, true, handed, k) && k.reader.Joined? && size > 0
    ensures ConnOk(log, true, handed, k.(reader := Replaying(k.reader.last, Batches(Since(log, k.reader.last), size))))
  {
    var last := k.reader.last;
    var k' := k.(reader := Replaying(last, Batches(Since(log, last), size)));
    assert Output(k') == Output(k);
    BatchesPartition(Since(log, last), size);
    forall n | 1 <= n <= |log| && n > last
      ensures Handled(log, handed, k', n) || log[n - 1] in Payloads(k'.reader.rest)
    {
      InSince(log, last, n);
    }
    forall n | 1 <= n <= |log| && Handled(log, handed, k, n)
      ensures Handled(log, handed, k', n)
    {
    }
  }

  /** The state after handing over the next batch: a refused batch ends the replay with an error, the last accepted one
      ends it without. */
  function HandOver(k: Conn, take: bool): Conn
    requires k.reader.Replaying? && k.reader.rest != []
  {
    var k' := Enqueue(k, Catchup(k.reader.rest[0]), take);
    var last, rest := k.reader.last, k.reader.rest[1..];
    if Overflows(k) then Enqueue(k'.(reader := Idle), Other, take)
    else if rest != [] then k'.(reader := Replaying(last, rest))
    else k'.(reader := Idle, caught := Some(if k.caught.Some? && k.caught.value < last then k.caught.value else last))
  }

  /** What was still to come is now in the output or still to come. */
  lemma HandOverKeepsCatchUp(log: seq<Op>, handed: nat, k: Conn, k': Conn)
    requires handed <= |log| && CatchUp(log, handed, k) && k.reader.Replaying? && k.reader.rest != []
    requires Output(k') == Output(k) + [Catchup(k.reader.rest[0])] && k'.inForce == k.inForce
    ensures forall n :: 1 <= n <= |log| && n > k.reader.last ==>
                          Handled(log, handed, k', n) || log[n - 1] in Payloads(k.reader.rest[1..])
    ensures forall n :: 1 <= n <= |log| && Handled(log, handed, k, n) ==> Handled(log, handed, k', n)
  {
    var f := Catchup(k.reader.rest[0]);
    forall n | 1 <= n <= |log|
      ensures Handled(log, handed, k, n) ==> Handled(log, handed, k', n)
      ensures n > k.reader.last ==> Handled(log, handed, k', n) || log[n - 1] in Payloads(k.reader.rest[1..])
    {
      CarriedGrows(Output(k), f, log[n - 1]);
      assert n > k.reader.last ==>
               Handled(log, handed, k, n) || log[n - 1] in k.reader.rest[0].ops + Payloads(k.reader.rest[1..]);
    }
  }

  /** The replay ends with an error, and the connection is closed. */
  lemma OverflowKeeps(log: seq<Op>, handed: nat, k: Conn, take: bool)
    requires ConnOk(log, true, handed, k) && k.reader.Replaying? && k.reader.rest != [] && Overflows(k)
    ensures ConnOk(log, true, handed, HandOver(k, take))
  {
    var f := Catchup(k.reader.rest[0]);
    var k1 := Enqueue(k, f, take);
    EnqueueOutput(k, f, take);
    EnqueueOutput(k1.(reader := Idle), Other, take);
  }

  /** The batch is queued: everything but the reader, the queue and the cursor stays. */
  lemma AcceptedBatch(k: Conn, take: bool)
    requires QueueOk(k) && k.reader.Replaying? && k.reader.rest != [] && !Overflows(k)
    ensures var k' := HandOver(k, take);
            && QueueOk(k') && (k'.open <==> k.open)
            && k'.session == k.session && k'.sessions == k.sessions
            && k'.joinedAt == k.joinedAt && k'.inForce == k.inForce && k'.asked == k.asked && k'.unread == k.unread
            && (k.open ==> Output(k') == Output(k) + [Catchup(k.reader.rest[0])])
  {
    EnqueueOutput(k, Catchup(k.reader.rest[0]), take);
    var k1 := Enqueue(k, Catchup(k.reader.rest[0]), take);
    assert Output(HandOver(k, take)) == Output(k1);
  }

  /** The replay goes on, or it is over and the connection has caught up. */
  lemma AcceptedReader(k: Conn, take: bool)
    requires SessionOk(k, true) && ReaderOk(k, true) && k.reader.Replaying? && k.reader.rest != [] && !Overflows(k)
    ensures SessionOk(HandOver(k, take), true) && ReaderOk(HandOver(k, take), true)
  {
  }

  lemma HandOverKeeps(log: seq<Op>, handed: nat, k: Conn, take: bool)
    requires ConnOk(log, true, handed, k) && k.reader.Replaying? && k.reader.rest != []
    ensures ConnOk(log, true, handed, HandOver(k, take))
  {
    if Overflows(k) {
      OverflowKeeps(log, handed, k, take);
    } else {
      var k' := HandOver(k, take);
      AcceptedBatch(k, take);
      AcceptedReader(k, take);
      if k.open {
        LiveOpsSnoc(Output(k), Catchup(k.reader.rest[0]));
        HandOverKeepsCatchUp(log, handed, k, k');
        assert LiveOk(log, handed, k');
      }
    }
  }

  /** A new entry is committed and not handed out yet. */
  lemma CommitKeeps(log: seq<Op>, inHub: bool, k: Conn, op: Op)
    requires ConnOk(log, inHub, |log|, k)
    ensures ConnOk(log + [op], inHub, |log|, k)
  {
    var log' := log + [op];
    if k.open && k.joinedAt.Some? {
      assert log'[k.joinedAt.value..|log|] == log[k.joinedAt.value..|log|];
    }
    forall n | 1 <= n <= |log| && Handled(log, |log|, k, n)
      ensures Handled(log', |log|, k, n)
    {
    }
    assert Handled(log', |log|, k, |log| + 1);
  }

  /** The broadcast reached its end without this connection being a target: it is not in the subscriber set. */
  lemma PassedByKeeps(log: seq<Op>, handed: nat, k: Conn)
    requires ConnOk(log, false, handed, k)
    ensures ConnOk(log, false, |log|, k)
  {
  }

  /** The recorded session; without one, the empty string. */
  function SessionFor(k: Conn): SessionId {
    match k.session case None => "" case Some(session) => session
  }

  /** The broadcast of an entry reaches this connection. */
  function Receive(k: Conn, op: Op, take: bool): Conn {
    var k' := k.(inForce := k.inForce[op.seqNo := SessionFor(k)]);
    if SessionFor(k) == op.session then k' else Enqueue(k', Live(op), take)
  }

  lemma WithoutOneMore(before: seq<Op>, op: Op, inForce: map<nat, SessionId>, session: SessionId)
    requires forall x :: x in before ==> x.seqNo != op.seqNo
    ensures Without(before + [op], inForce[op.seqNo := session])
            == Without(before, inForce) + if session == op.session then [] else [op]
  {
    WithoutIrrelevant(before, inForce, op.seqNo, session);
    WithoutSnoc(before, op, inForce[op.seqNo := session]);
  }

  lemma LiveOpsOneMore(fs: seq<Frame>, op: Op, echo: bool)
    ensures LiveOps(fs + if echo then [] else [Live(op)]) == LiveOps(fs) + if echo then [] else [op]
  {
    if echo {
      assert fs + [] == fs;
    } else {
      LiveOpsSnoc(fs, Live(op));
    }
  }

  lemma SliceOneMore(log: seq<Op>, from: nat)
    requires Numbered(log) && from < |log|
    ensures log[from..|log|] == log[from..|log| - 1] + [log[|log| - 1]]
    ensures forall op :: op in log[from..|log| - 1] ==> op.seqNo != |log|
  {
  }

  lemma InForceOneMore(log: seq<Op>, from: nat, inForce: map<nat, SessionId>, sessions: set<SessionId>,
                       session: SessionId)
    requires Numbered(log) && from < |log| && InForceOk(log, from, |log| - 1, inForce, sessions) && session in sessions
    ensures InForceOk(log, from, |log|, inForce[|log| := session], sessions)
  {
  }

  /** The live messages grow by the entry, unless it is an echo. */
  lemma ReceiveKeepsLive(log: seq<Op>, k: Conn, k': Conn)
    requires Numbered(log) && log != [] && LiveOk(log, |log| - 1, k) && k.joinedAt.Some?
    requires k'.joinedAt == k.joinedAt && k'.sessions == k.sessions && SessionFor(k) in k.sessions
    requires k'.inForce == k.inForce[|log| := SessionFor(k)]
    requires var op := log[|log| - 1]; Output(k') == Output(k) + if SessionFor(k) == op.session then [] else [Live(op)]
    ensures LiveOk(log, |log|, k')
  {
    var op, from := log[|log| - 1], k.joinedAt.value;
    SliceOneMore(log, from);
    InForceOneMore(log, from, k.inForce, k.sessions, SessionFor(k));
    WithoutOneMore(log[from..|log| - 1], op, k.inForce, SessionFor(k));
    LiveOpsOneMore(Output(k), op, SessionFor(k) == op.session);
  }

  lemma ReceiveKeepsCatchUp(log: seq<Op>, k: Conn, k': Conn)
    requires Numbered(log) && log != [] && CatchUp(log, |log| - 1, k)
    requires k'.caught == k.caught && k'.reader == k.reader && k'.inForce == k.inForce[|log| := SessionFor(k)]
    requires var op := log[|log| - 1]; Output(k') == Output(k) + if SessionFor(k) == op.session then [] else [Live(op)]
    ensures CatchUp(log, |log|, k')
  {
    var op := log[|log| - 1];
    assert Output(k) + [] == Output(k);
    forall n | 1 <= n <= |log| && Handled(log, |log| - 1, k, n)
      ensures Handled(log, |log|, k', n)
    {
      CarriedGrows(Output(k), Live(op), log[n - 1]);
    }
  }

  lemma ReceiveKeeps(log: seq<Op>, k: Conn, take: bool)
    requires Numbered(log) && log != [] && ConnOk(log, true, |log| - 1, k) && k.open
    ensures ConnOk(log, true, |log|, Receive(k, log[|log| - 1], take))
  {
    var op := log[|log| - 1];
    var k1, k' := k.(inForce := k.inForce[op.seqNo := SessionFor(k)]), Receive(k, op, take);
    assert Output(k1) == Output(k);
    EnqueueOutput(k1, Live(op), take);
    if k'.open {
      ReceiveKeepsLive(log, k, k');
      ReceiveKeepsCatchUp(log, k, k');
    }
  }

  lemma LeaveKeeps(log: seq<Op>, inHub: bool, handed: nat, k: Conn)
    requires ConnOk(log, inHub, handed, k) && !k.open && k.reader.Idle?
    ensures ConnOk(log, false, handed, k.(reader := Gone))
  {
  }
}
