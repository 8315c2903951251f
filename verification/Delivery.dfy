/** Fan-out for one document on one node: connections subscribe and replay while submits commit and broadcast, in every
    interleaving. The document lock admits one broadcast at a time; everything else is concurrent. */
module Delivery {
  import opened Core
  import opened Runs
  import opened Replay
  import opened Connection

  /** The broadcast in progress: none, committed but the subscribers not yet collected, or being handed to the
      collected subscribers. */
  datatype Pub = Quiet | Committed(op: Op) | Sending(op: Op, todo: set<ConnId>)

  datatype State = State(log: seq<Op>, hub: set<ConnId>, conns: map<ConnId, Conn>, pub: Pub)

  const INIT := State([], {}, map[], Quiet)

  datatype Action =
    | Accept(c: ConnId)
    | RecordSubscribe(c: ConnId, session: SessionId, last: int)
    | Join(c: ConnId)
    | ReadLog(c: ConnId, ok: bool, take: bool)
    | Hand(c: ConnId, take: bool)
    | RecordSync(c: ConnId, session: SessionId)
    | Commit(session: SessionId, payload: Bytes)
    | Collect
    | Deliver(c: ConnId, take: bool)
    | Finish
    | Write(c: ConnId)
    | WriteFails(c: ConnId)
    | Shut(c: ConnId)
    | OfferOther(c: ConnId, take: bool)
    | Leave(c: ConnId)
    | Restart

  // ----- steps ---------------------------------------------------------------------------------------------------

  ghost function Put(s: State, c: ConnId, k: Conn): State {
    s.(conns := s.conns[c := k])
  }

  function NextOp(s: State, session: SessionId, payload: Bytes): Op {
    Op(|s.log| + 1, session, payload)
  }

  /** How many entries have been handed out, as far as connection c is concerned. */
  ghost function Handed(s: State, c: ConnId): int {
    if s.pub.Committed? || (s.pub.Sending? && c in s.pub.todo) then |s.log| - 1 else |s.log|
  }

  ghost function JoinHub(s: State, c: ConnId): State
    requires c in s.conns && s.conns[c].reader.Recorded? && 0 <= Handed(s, c)
  {
    Put(s, c, Joining(s.conns[c], c in s.hub, Handed(s, c))).(hub := s.hub + {c})
  }

  /** Steps of one connection. `size` is the replay batch size. */
  ghost function ConnStep(size: nat, s: State, a: Action): Option<Conn>
    requires size > 0 && !a.Commit? && !a.Collect? && !a.Finish? && !a.Restart?
    requires a.c in s.conns
  {
    var k := s.conns[a.c];
    match a
    case RecordSubscribe(_, session, last) =>
      if k.reader.Idle? then Some(Subscribing(k, session, last)) else None
    case ReadLog(_, ok, take) =>
      if !k.reader.Joined? then None
      else if ok then Some(k.(reader := Replaying(k.reader.last, Batches(Since(s.log, k.reader.last), size))))
      else Some(Enqueue(k.(reader := Idle, unread := true), Other, take))
    case Hand(_, take) =>
      if k.reader.Replaying? && k.reader.rest != [] then Some(HandOver(k, take)) else None
    case RecordSync(_, session) =>
      if k.reader.Idle? && k.session.None? then Some(Syncing(k, session)) else None
    case Write(_) => if k.queue != [] then Some(WriteNext(k)) else None
    case WriteFails(_) => if k.queue != [] then Some(Close(k).(queue := k.queue[1..])) else None
    case Shut(_) => Some(Close(k))
    case OfferOther(_, take) => Some(Enqueue(k, Other, take))
    case _ => None
  }

  ghost function Step(size: nat, s: State, a: Action): Option<State>
    requires size > 0
  {
    match a
    case Accept(c) => if c in s.conns then None else Some(Put(s, c, NEW_CONN))
    case Join(c) =>
      if c in s.conns && s.conns[c].reader.Recorded? && 0 <= Handed(s, c) then Some(JoinHub(s, c)) else None
    case Commit(session, payload) =>
      if !s.pub.Quiet? then None
      else Some(s.(log := s.log + [NextOp(s, session, payload)], pub := Committed(NextOp(s, session, payload))))
    case Collect =>
      if !s.pub.Committed? then None else Some(s.(pub := Sending(s.pub.op, s.hub)))
    case Deliver(c, take) =>
      if !s.pub.Sending? || c !in s.pub.todo || c !in s.conns then None
      else Some(Put(s, c, Receive(s.conns[c], s.pub.op, take)).(pub := Sending(s.pub.op, s.pub.todo - {c})))
    case Finish =>
      if !s.pub.Sending? || s.pub.todo != {} then None else Some(s.(pub := Quiet))
    case Leave(c) =>
      if c !in s.conns || s.conns[c].open || !s.conns[c].reader.Idle? then None
      else Some(Put(s, c, s.conns[c].(reader := Gone)).(hub := if s.conns[c].session.Some? then s.hub - {c} else s.hub))
    case Restart => Some(s.(hub := {}, conns := map[], pub := Quiet))
    case _ =>
      if a.c !in s.conns then None
      else match ConnStep(size, s, a) case None => None case Some(k) => Some(Put(s, a.c, k))
  }

  ghost function Steps(size: nat): (State, Action) -> Option<State>
    requires size > 0
  {
    (s, a) => Step(size, s, a)
  }

  // ----- the invariant -------------------------------------------------------------------------------------------

  ghost predicate Shared(s: State) {
    && Numbered(s.log)
    && (!s.pub.Quiet? ==> s.log != [] && s.pub.op == s.log[|s.log| - 1])
    && s.hub <= s.conns.Keys
    && (s.pub.Sending? ==> s.pub.todo <= s.conns.Keys)
    && (s.pub.Sending? ==> forall c :: c in s.pub.todo && s.conns[c].open ==> c in s.hub)
  }

  ghost predicate Good(s: State) {
    && Shared(s)
    && forall c :: c in s.conns ==> ConnOk(s.log, c in s.hub, Handed(s, c), s.conns[c])
  }

  lemma ConnStepKeeps(size: nat, s: State, a: Action)
    requires Good(s) && size > 0 && !a.Commit? && !a.Collect? && !a.Finish? && !a.Restart?
    requires a.c in s.conns && ConnStep(size, s, a).Some?
    ensures ConnOk(s.log, a.c in s.hub, Handed(s, a.c), ConnStep(size, s, a).value)
    ensures ConnStep(size, s, a).value.open ==> s.conns[a.c].open
  {
    var k, inHub, handed := s.conns[a.c], a.c in s.hub, Handed(s, a.c);
    match a
    case RecordSubscribe(_, session, last) =>
      RecordKeeps(s.log, inHub, handed, k, Subscribing(k, session, last), session);
    case ReadLog(_, ok, take) =>
      if ok { ReadLogKeeps(s.log, handed, k, size); } else { FailedReplayKeeps(s.log, inHub, handed, k, take); }
    case Hand(_, take) => HandOverKeeps(s.log, handed, k, take);
    case RecordSync(_, session) => RecordKeeps(s.log, inHub, handed, k, Syncing(k, session), session);
    case Write(_) => WriteKeeps(s.log, inHub, handed, k);
    case WriteFails(_) => CloseKeeps(s.log, inHub, handed, k);
    case Shut(_) => CloseKeeps(s.log, inHub, handed, k);
    case OfferOther(_, take) => EnqueueKeeps(s.log, inHub, handed, k, Other, take);
  }

  /** A replay that could not read the log ends with an error message and no claim. */
  lemma FailedReplayKeeps(log: seq<Op>, inHub: bool, handed: nat, k: Conn, take: bool)
    requires ConnOk(log, inHub, handed, k) && k.reader.Joined?
    ensures ConnOk(log, inHub, handed, Enqueue(k.(reader := Idle, unread := true), Other, take))
  {
    var k' := k.(reader := Idle, unread := true);
    assert Output(k') == Output(k);
    forall n | 1 <= n <= |log| && Handled(log, handed, k, n)
      ensures Handled(log, handed, k', n)
    {
    }
    EnqueueKeeps(log, inHub, handed, k', Other, take);
  }

  lemma PutKeeps(s: State, c: ConnId, k: Conn)
    requires Good(s) && c in s.conns && ConnOk(s.log, c in s.hub, Handed(s, c), k) && (k.open ==> s.conns[c].open)
    ensures Good(Put(s, c, k))
  {
    var s' := Put(s, c, k);
    assert forall d :: Handed(s', d) == Handed(s, d);
  }

  lemma AcceptKeeps(s: State, c: ConnId)
    requires Good(s) && c !in s.conns
    ensures Good(Put(s, c, NEW_CONN))
  {
    NewConnOk(s.log, Handed(s, c));
    var s' := Put(s, c, NEW_CONN);
    assert forall d :: Handed(s', d) == Handed(s, d);
  }

  lemma JoinKeepsGood(s: State, c: ConnId)
    requires Good(s) && c in s.conns && s.conns[c].reader.Recorded?
    ensures 0 <= Handed(s, c) && Good(JoinHub(s, c))
  {
    JoinKeeps(s.log, c in s.hub, Handed(s, c), s.conns[c]);
    var s' := JoinHub(s, c);
    assert forall d :: Handed(s', d) == Handed(s, d);
  }

  lemma CommitKeepsGood(s: State, op: Op)
    requires Good(s) && s.pub.Quiet? && op.seqNo == |s.log| + 1
    ensures Good(s.(log := s.log + [op], pub := Committed(op)))
  {
    forall c | c in s.conns
      ensures ConnOk(s.log + [op], c in s.hub, |s.log|, s.conns[c])
    {
      CommitKeeps(s.log, c in s.hub, s.conns[c], op);
    }
  }

  lemma CollectKeepsGood(s: State)
    requires Good(s) && s.pub.Committed?
    ensures Good(s.(pub := Sending(s.pub.op, s.hub)))
  {
    var s' := s.(pub := Sending(s.pub.op, s.hub));
    forall c | c in s'.conns
      ensures ConnOk(s'.log, c in s'.hub, Handed(s', c), s'.conns[c])
    {
      if c !in s.hub { PassedByKeeps(s.log, Handed(s, c), s.conns[c]); }
    }
  }

  lemma DeliveredOk(s: State, c: ConnId, take: bool)
    requires Good(s) && s.pub.Sending? && c in s.pub.todo
    ensures ConnOk(s.log, c in s.hub, |s.log|, Receive(s.conns[c], s.pub.op, take))
    ensures Receive(s.conns[c], s.pub.op, take).open ==> s.conns[c].open
  {
    var k := s.conns[c];
    if k.open {
      ReceiveKeeps(s.log, k, take);
    }
  }

  lemma DeliverKeepsGood(s: State, c: ConnId, take: bool)
    requires Good(s) && s.pub.Sending? && c in s.pub.todo
    ensures Good(Put(s, c, Receive(s.conns[c], s.pub.op, take)).(pub := Sending(s.pub.op, s.pub.todo - {c})))
  {
    DeliveredOk(s, c, take);
    var s' := Put(s, c, Receive(s.conns[c], s.pub.op, take)).(pub := Sending(s.pub.op, s.pub.todo - {c}));
    assert forall d :: d != c ==> Handed(s', d) == Handed(s, d);
    assert Handed(s', c) == |s.log|;
  }

  lemma LeaveKeepsGood(s: State, c: ConnId)
    requires Good(s) && c in s.conns && !s.conns[c].open && s.conns[c].reader.Idle?
    ensures Good(Put(s, c,
                     s.conns[c].(reader := Gone)).(hub := if s.conns[c].session.Some? then s.hub - {c} else s.hub))
  {
    LeaveKeeps(s.log, c in s.hub, Handed(s, c), s.conns[c]);
    var s' := Put(s, c, s.conns[c].(reader := Gone)).(hub := if s.conns[c].session.Some? then s.hub - {c} else s.hub);
    assert forall d :: Handed(s', d) == Handed(s, d);
    assert s'.hub == s.hub - {c};
  }

  lemma FinishKeepsGood(s: State)
    requires Good(s) && s.pub.Sending? && s.pub.todo == {}
    ensures Good(s.(pub := Quiet))
  {
    assert forall c :: Handed(s, c) == Handed(s.(pub := Quiet), c);
  }

  lemma StepKeepsGood(size: nat, s: State, a: Action)
    requires size > 0 && Good(s) && Step(size, s, a).Some?
    ensures Good(Step(size, s, a).value)
  {
    match a
    case Accept(c) => AcceptKeeps(s, c);
    case Join(c) => JoinKeepsGood(s, c);
    case Commit(session, payload) => CommitKeepsGood(s, NextOp(s, session, payload));
    case Collect => CollectKeepsGood(s);
    case Deliver(c, take) => DeliverKeepsGood(s, c, take);
    case Finish => FinishKeepsGood(s);
    case Leave(c) => LeaveKeepsGood(s, c);
    case Restart =>
    case _ =>
      ConnStepKeeps(size, s, a);
      PutKeeps(s, a.c, ConnStep(size, s, a).value);
  }

  lemma ReachableGood(size: nat, acts: seq<Action>)
    requires size > 0
    ensures Exec(Steps(size), INIT, acts).Some? ==> Good(Exec(Steps(size), INIT, acts).value)
  {
    forall m: State, a: Action | Good(m) && Steps(size)(m, a).Some?
      ensures Good(Steps(size)(m, a).value)
    {
      StepKeepsGood(size, m, a);
    }
    Invariance(Steps(size), (s: State) => Good(s), INIT, acts);
  }

  // ----- what every run guarantees -------------------------------------------------------------------------------

  lemma CaughtUp(s: State, c: ConnId, n: nat)
    requires Good(s) && c in s.conns && s.conns[c].open && s.conns[c].caught.Some?
    requires s.conns[c].caught.value < n && 1 <= n <= |s.log| && (n < |s.log| || s.pub.Quiet?)
    requires !Echo(s.conns[c].inForce, s.log[n - 1])
    ensures Carried(Output(s.conns[c]), s.log[n - 1])
  {
    assert Handled(s.log, Handed(s, c), s.conns[c], n);
  }

  /** The connection's replay from `last` returned without error; or its last subscribe was from `last`, the log could
      be read for it, and the handler has returned. */
  ghost predicate ReplayedFrom(s: State, c: ConnId, last: int) {
    && c in s.conns && s.conns[c].open
    && (|| s.conns[c].caught == Some(last)
        || (c in s.hub && s.conns[c].reader.Idle? && !s.conns[c].unread && s.conns[c].asked == Some(last)))
  }

  /** A subscribe whose log read did not fail hands over everything before its handler returns: in every run, an open
      subscriber whose reader is idle has caught up from the cursor it last asked for, or from a lower one. */
  lemma SubscriberCatchesUp(size: nat, acts: seq<Action>, s: State, c: ConnId)
    requires size > 0 && Exec(Steps(size), INIT, acts) == Some(s)
    requires c in s.hub && c in s.conns && s.conns[c].open && s.conns[c].reader.Idle? && !s.conns[c].unread
    ensures var k := s.conns[c]; k.caught.Some? && k.asked.Some? && k.caught.value <= k.asked.value
  {
    ReachableGood(size, acts);
  }

  lemma ReplayedIsCaughtUp(s: State, c: ConnId, last: int)
    requires Good(s) && ReplayedFrom(s, c, last)
    ensures s.conns[c].caught.Some? && s.conns[c].caught.value <= last
  {
  }

  /** No lost update. An open connection that has replayed from cursor `last` has been sent, or has queued, every entry
      above that cursor whose broadcast has ended, unless the entry was authored under the session the connection had
      recorded when the entry reached it. The subscribe may have raced with any number of commits. */
  lemma NoLostUpdate(size: nat, acts: seq<Action>, s: State, c: ConnId, last: int, n: nat)
    requires size > 0 && Exec(Steps(size), INIT, acts) == Some(s) && ReplayedFrom(s, c, last)
    requires last < n && 1 <= n <= |s.log| && (n < |s.log| || s.pub.Quiet?)
    requires !Echo(s.conns[c].inForce, s.log[n - 1])
    ensures Carried(Output(s.conns[c]), s.log[n - 1])
  {
    ReachableGood(size, acts);
    ReplayedIsCaughtUp(s, c, last);
    CaughtUp(s, c, n);
  }

  // ----- a subscribe can always be completed ----------------------------------------------------------------------

  /** One more action of the run. */
  lemma Go(size: nat, s0: State, acts: seq<Action>, s: State, a: Action) returns (more: seq<Action>, s': State)
    requires size > 0 && Exec(Steps(size), s0, acts) == Some(s) && Step(size, s, a).Some?
    ensures Exec(Steps(size), s0, more) == Some(s') && Step(size, s, a) == Some(s') && acts <= more
  {
    s' := Step(size, s, a).value;
    more := acts + [a];
    Then(Steps(size), s0, acts, s, a, s');
  }

  /** The connection is replaying, open, with its queue within bounds. */
  ghost predicate Streaming(s: State, c: ConnId, last: int) {
    && c in s.conns && s.conns[c].open && |s.conns[c].queue| <= SEND_QUEUE_SIZE && c in s.hub
    && s.conns[c].reader.Replaying? && s.conns[c].reader.rest != [] && s.conns[c].reader.last == last
    && s.conns[c].asked == Some(last) && !s.conns[c].unread
  }

  /** Its reader has returned and it has caught up. */
  ghost predicate Streamed(s: State, c: ConnId, last: int) {
    && c in s.conns && s.conns[c].open && c in s.hub && s.conns[c].reader.Idle? && !s.conns[c].unread
    && s.conns[c].asked == Some(last) && s.conns[c].caught.Some? && s.conns[c].caught.value <= last
  }

  /** Making room if there is none. */
  lemma MakeRoom(size: nat, s0: State, acts: seq<Action>, s: State, c: ConnId, last: int)
    returns (more: seq<Action>, s': State)
    requires size > 0 && Exec(Steps(size), s0, acts) == Some(s) && Streaming(s, c, last)
    ensures Exec(Steps(size), s0, more) == Some(s') && acts <= more && Streaming(s', c, last)
    ensures |s'.conns[c].queue| < SEND_QUEUE_SIZE && s'.conns[c].reader == s.conns[c].reader && s'.log == s.log
  {
    if |s.conns[c].queue| < SEND_QUEUE_SIZE {
      more, s' := acts, s;
    } else {
      more, s' := Go(size, s0, acts, s, Write(c));
    }
  }

  /** From a replay in progress, writing and handing over batches leads to its end. */
  lemma {:induction false} StreamingCompletes(size: nat, s0: State, acts: seq<Action>, s: State, c: ConnId, last: int)
    returns (more: seq<Action>, s': State)
    requires size > 0 && Exec(Steps(size), s0, acts) == Some(s) && Streaming(s, c, last)
    ensures Exec(Steps(size), s0, more) == Some(s') && acts <= more && Streamed(s', c, last) && s'.log == s.log
    decreases |s.conns[c].reader.rest|
  {
    var acts1, s1 := MakeRoom(size, s0, acts, s, c, last);
    var acts2, s2 := Go(size, s0, acts1, s1, Hand(c, true));
    if |s.conns[c].reader.rest| == 1 {
      more, s' := acts2, s2;
    } else {
      more, s' := StreamingCompletes(size, s0, acts2, s2, c, last);
    }
  }

  /** A new connection is accepted, open and idle; one that is closed and idle can leave, and is then in no set. */
  lemma ConnectionsComeAndGo(size: nat, acts: seq<Action>, s: State, c: ConnId)
    requires size > 0 && Exec(Steps(size), INIT, acts) == Some(s)
    ensures c !in s.conns ==>
              var s' := Step(size, s, Accept(c));
              s'.Some? && c in s'.value.conns && s'.value.conns[c].open && s'.value.conns[c].reader.Idle?
    ensures c in s.conns && !s.conns[c].open && s.conns[c].reader.Idle? ==>
              var s' := Step(size, s, Leave(c)); s'.Some? && c !in s'.value.hub
  {
    ReachableGood(size, acts);
  }

  /** Whatever else is going on, a subscribe on an idle open connection can run to its end: it enters the set, reads the
      log and hands over every batch. */
  lemma SubscribeCompletes(size: nat, acts: seq<Action>, s: State, c: ConnId, session: SessionId, last: int)
    returns (more: seq<Action>, s': State)
    requires size > 0 && Exec(Steps(size), INIT, acts) == Some(s)
    requires c in s.conns && s.conns[c].open && s.conns[c].reader.Idle?
    ensures Exec(Steps(size), INIT, more) == Some(s') && acts <= more && Streamed(s', c, last) && s'.log == s.log
  {
    ReachableGood(size, acts);
    var acts1, s1 := Go(size, INIT, acts, s, RecordSubscribe(c, session, last));
    ReachableGood(size, acts1);
    var acts2, s2 := Go(size, INIT, acts1, s1, Join(c));
    var acts3, s3 := Go(size, INIT, acts2, s2, ReadLog(c, true, true));
    assert Streaming(s3, c, last);
    more, s' := StreamingCompletes(size, INIT, acts3, s3, c, last);
  }

  function Others(ops: seq<Op>, session: SessionId): seq<Op> {
    if ops == [] then []
    else
      var op := ops[|ops| - 1];
      Others(ops[..|ops| - 1], session) + if op.session == session then [] else [op]
  }

  lemma {:induction false} WithoutIsOthers(ops: seq<Op>, inForce: map<nat, SessionId>, session: SessionId)
    requires forall i :: 0 <= i < |ops| ==> (Echo(inForce, ops[i]) <==> ops[i].session == session)
    ensures Without(ops, inForce) == Others(ops, session)
    decreases |ops|
  {
    if ops != [] {
      WithoutIsOthers(ops[..|ops| - 1], inForce, session);
    }
  }

  ghost predicate Ascending(ops: seq<Op>) {
    forall i, j :: 0 <= i < j < |ops| ==> ops[i].seqNo < ops[j].seqNo
  }

  lemma {:induction false} WithoutMembers(ops: seq<Op>, inForce: map<nat, SessionId>)
    ensures forall op :: op in Without(ops, inForce) <==> op in ops && !Echo(inForce, op)
    decreases |ops|
  {
    if ops != [] {
      WithoutMembers(ops[..|ops| - 1], inForce);
      assert ops == ops[..|ops| - 1] + [ops[|ops| - 1]];
    }
  }

  lemma {:induction false} WithoutAscending(ops: seq<Op>, inForce: map<nat, SessionId>)
    requires Ascending(ops)
    ensures Ascending(Without(ops, inForce))
    decreases |ops|
  {
    if ops != [] {
      var before := ops[..|ops| - 1];
      WithoutAscending(before, inForce);
      WithoutMembers(before, inForce);
      forall i | 0 <= i < |Without(before, inForce)|
        ensures Without(before, inForce)[i].seqNo < ops[|ops| - 1].seqNo
      {
        var op := Without(before, inForce)[i];
        assert op in Without(before, inForce);
        var j :| 0 <= j < |before| && before[j] == op;
        assert ops[j] == before[j];
      }
    }
  }

  /** Live order is commit order. The live messages of an open subscriber are the log entries handed out since it
      subscribed, in strictly ascending order, each withheld if and only if it was authored under the session the
      connection had recorded when the entry reached it. That session is one of its own at every delivery; with one
      session in use all along these are exactly the entries of the other sessions. */
  lemma LiveOrderIsCommitOrder(size: nat, acts: seq<Action>, s: State, c: ConnId)
    requires size > 0 && Exec(Steps(size), INIT, acts) == Some(s)
    requires c in s.conns && s.conns[c].open && s.conns[c].joinedAt.Some?
    ensures var k, from, to := s.conns[c], s.conns[c].joinedAt.value, Handed(s, c);
            && from <= to <= |s.log|
            && LiveOps(Output(k)) == Without(s.log[from..to], k.inForce)
            && (forall op :: op in LiveOps(Output(k)) <==> op in s.log[from..to] && !Echo(k.inForce, op))
            && Ascending(LiveOps(Output(k)))
            && (forall i :: from <= i < to ==> s.log[i].seqNo in k.inForce && k.inForce[s.log[i].seqNo] in k.sessions)
            && (forall x :: k.sessions == {x} ==> LiveOps(Output(k)) == Others(s.log[from..to], x))
  {
    ReachableGood(size, acts);
    var k, from, to := s.conns[c], s.conns[c].joinedAt.value, Handed(s, c);
    var slice := s.log[from..to];
    WithoutAscending(slice, k.inForce);
    WithoutMembers(slice, k.inForce);
    forall x | k.sessions == {x}
      ensures Without(slice, k.inForce) == Others(slice, x)
    {
      OneSession(s.log, from, to, k.inForce, x);
    }
  }

  lemma OneSession(log: seq<Op>, from: nat, to: nat, inForce: map<nat, SessionId>, x: SessionId)
    requires from <= to <= |log| && forall i :: from <= i < to ==> log[i].seqNo in inForce && inForce[log[i].seqNo] == x
    ensures Without(log[from..to], inForce) == Others(log[from..to], x)
  {
    var slice := log[from..to];
    forall i | 0 <= i < |slice| ensures Echo(inForce, slice[i]) <==> slice[i].session == x {
      assert slice[i] == log[from + i];
    }
    WithoutIsOthers(slice, inForce, x);
  }

  /** No silent drop. The queue never holds more than 256 frames, a connection is closed at most once, and while it is
      open the frames written followed by the frames queued are everything ever offered to it, in order. */
  lemma NoSilentDrop(size: nat, acts: seq<Action>, s: State, c: ConnId)
    requires size > 0 && Exec(Steps(size), INIT, acts) == Some(s) && c in s.conns
    ensures |s.conns[c].queue| <= SEND_QUEUE_SIZE
    ensures s.conns[c].closes == (if s.conns[c].open then 0 else 1)
    ensures s.conns[c].open ==> s.conns[c].written + s.conns[c].queue == s.conns[c].offered
  {
    ReachableGood(size, acts);
  }

  /** Before a connection subscribes it receives no live message, however often it syncs: a sync records the session
      for echo suppression but does not enter the subscriber set. */
  lemma SyncAloneReceivesNothing(size: nat, acts: seq<Action>, s: State, c: ConnId)
    requires size > 0 && Exec(Steps(size), INIT, acts) == Some(s)
    requires c in s.conns && s.conns[c].open && c !in s.hub
    ensures LiveOps(Output(s.conns[c])) == []
  {
    ReachableGood(size, acts);
  }
}
