/** Lock order. Every request handler takes its locks in one global order, so any number of them, interleaved in any
    way, never deadlock. */
module Locks {
  import opened Core
  import opened Runs

  /** The engine's map lock, a docState's lock, a document's CRDT lock, the hub's reader-writer lock, a connection's
      subscription lock, and the lock inside a connection's close-once. */
  datatype Lock = EngineMap | Doc(doc: DocId) | Crdt(doc: DocId) | HubLock | Sub(conn: ConnId) | CloseOnce(conn: ConnId)

  datatype Instr = Acquire(lock: Lock, exclusive: bool) | Unlock(lock: Lock)

  type Program = seq<Instr>

  const MAX_RANK := 6

  function Rank(l: Lock): (r: nat)
    ensures r < MAX_RANK
  {
    match l
    case Doc(_) => 0
    case Crdt(_) => 1
    case HubLock => 2
    case Sub(_) => 3
    case CloseOnce(_) => 4
    case EngineMap => 5
  }

  /** A lock is only taken above all locks held, and everything is given back. */
  predicate Disciplined(held: set<Lock>, p: Program)
    decreases |p|
  {
    if p == [] then held == {}
    else
      match p[0]
      case Acquire(l, _) => (forall h :: h in held ==> Rank(h) < Rank(l)) && Disciplined(held + {l}, p[1..])
      case Unlock(l) => l in held && Disciplined(held - {l}, p[1..])
  }

  // ----- the programs of the handlers ----------------------------------------------------------------------------

  function Region(l: Lock): Program {
    [Acquire(l, true), Unlock(l)]
  }

  /** Broadcasting to the collected targets: for each, the recorded session, then possibly closing it. */
  function Fanout(targets: seq<ConnId>): Program {
    if targets == [] then [] else Region(Sub(targets[0])) + (Region(CloseOnce(targets[0])) + Fanout(targets[1..]))
  }

  /** The two looks into the engine's map around a load. */
  const FIND_STATE: Program := Region(EngineMap) + Region(EngineMap)

  /** Submit: under the document lock it merges, saves and broadcasts. `uses` is how often the CRDT is called. */
  function Merges(d: DocId, uses: nat): Program {
    if uses == 0 then [] else Region(Crdt(d)) + Merges(d, uses - 1)
  }

  const COLLECT_TARGETS: Program := [Acquire(HubLock, false), Unlock(HubLock)]

  function SubmitProgram(d: DocId, uses: nat, targets: seq<ConnId>): Program {
    FIND_STATE
      + ([Acquire(Doc(d), true)] + (Merges(d, uses) + (COLLECT_TARGETS + (Fanout(targets) + [Unlock(Doc(d))]))))
  }

  /** A sync message: record the session, submit, and offer the ack. */
  function SyncProgram(c: ConnId, d: DocId, uses: nat, targets: seq<ConnId>): Program {
    Region(Sub(c)) + (SubmitProgram(d, uses, targets) + Region(CloseOnce(c)))
  }

  /** Snapshot and Export. */
  function ReadProgram(d: DocId): Program {
    FIND_STATE + ([Acquire(Doc(d), true)] + (Merges(d, 1) + [Unlock(Doc(d))]))
  }

  /** Subscribe: record the session, enter the set, and offer the replay batches, any of which may close. */
  function SubscribeProgram(c: ConnId): Program {
    Region(Sub(c)) + (Region(HubLock) + Region(CloseOnce(c)))
  }

  /** Teardown: the hub lock is held while the connection's subscriptions are read. */
  function TeardownProgram(c: ConnId): Program {
    Region(CloseOnce(c)) + ([Acquire(HubLock, true)] + (Region(Sub(c)) + [Unlock(HubLock)]))
  }

  /** Reserving or releasing a slot, and dropping a cached document. */
  const SLOT_PROGRAM: Program := Region(HubLock)
  const FORGET_PROGRAM: Program := Region(EngineMap)

  /** The cluster's receive loop hands a message to the local hub, without the document lock. */
  function ReceiveProgram(targets: seq<ConnId>): Program {
    COLLECT_TARGETS + Fanout(targets)
  }

  /** The write loop and the keepalive loop end by closing the connection. */
  function CloseProgram(c: ConnId): Program {
    Region(CloseOnce(c))
  }

  ghost predicate Above(held: set<Lock>, l: Lock) {
    forall h :: h in held ==> Rank(h) < Rank(l)
  }

  /** A region in front of a disciplined program. */
  lemma RegionThen(held: set<Lock>, l: Lock, exclusive: bool, rest: Program)
    requires Above(held, l) && Disciplined(held, rest)
    ensures Disciplined(held, [Acquire(l, exclusive), Unlock(l)] + rest)
  {
    var p := [Acquire(l, exclusive), Unlock(l)] + rest;
    assert p[1..] == [Unlock(l)] + rest;
    assert ([Unlock(l)] + rest)[1..] == rest;
    assert held + {l} - {l} == held;
  }

  lemma AcquireThen(held: set<Lock>, l: Lock, exclusive: bool, rest: Program)
    requires Above(held, l) && Disciplined(held + {l}, rest)
    ensures Disciplined(held, [Acquire(l, exclusive)] + rest)
  {
    assert ([Acquire(l, exclusive)] + rest)[1..] == rest;
  }

  lemma Regroup(a: Program, b: Program, c: Program, rest: Program)
    ensures (a + (b + c)) + rest == a + (b + (c + rest))
  {
  }

  /** One balanced program after another. */
  lemma {:induction false} InSequence(held: set<Lock>, p: Program, q: Program)
    requires Disciplined(held, p) && Disciplined({}, q)
    ensures Disciplined(held, p + q)
    decreases |p|
  {
    if p == [] {
      assert p + q == q;
    } else {
      assert (p + q)[1..] == p[1..] + q;
      match p[0]
      case Acquire(l, _) => InSequence(held + {l}, p[1..], q);
      case Unlock(l) => InSequence(held - {l}, p[1..], q);
    }
  }

  lemma {:induction false} FanoutThen(held: set<Lock>, targets: seq<ConnId>, rest: Program)
    requires (forall h :: h in held ==> Rank(h) < 3) && Disciplined(held, rest)
    ensures Disciplined(held, Fanout(targets) + rest)
    decreases |targets|
  {
    if targets == [] {
      assert Fanout(targets) + rest == rest;
    } else {
      var c, tail := targets[0], Fanout(targets[1..]) + rest;
      FanoutThen(held, targets[1..], rest);
      RegionThen(held, CloseOnce(c), true, tail);
      RegionThen(held, Sub(c), true, Region(CloseOnce(c)) + tail);
      Regroup(Region(Sub(c)), Region(CloseOnce(c)), Fanout(targets[1..]), rest);
    }
  }

  lemma {:induction false} MergesThen(d: DocId, uses: nat, rest: Program)
    requires Disciplined({Doc(d)}, rest)
    ensures Disciplined({Doc(d)}, Merges(d, uses) + rest)
    decreases uses
  {
    if uses == 0 {
      assert Merges(d, uses) + rest == rest;
    } else {
      MergesThen(d, uses - 1, rest);
      RegionThen({Doc(d)}, Crdt(d), true, Merges(d, uses - 1) + rest);
      assert Merges(d, uses) + rest == Region(Crdt(d)) + (Merges(d, uses - 1) + rest);
    }
  }

  lemma UnlockLast(l: Lock)
    ensures Disciplined({l}, [Unlock(l)])
  {
    assert [Unlock(l)][1..] == [] && {l} - {l} == {};
  }

  lemma FindStateThen(rest: Program)
    requires Disciplined({}, rest)
    ensures Disciplined({}, FIND_STATE + rest)
  {
    RegionThen({}, EngineMap, true, rest);
    RegionThen({}, EngineMap, true, Region(EngineMap) + rest);
    assert FIND_STATE + rest == Region(EngineMap) + (Region(EngineMap) + rest);
  }

  /** Every handler's program is disciplined. */
  lemma HandlersAreDisciplined(d: DocId, uses: nat, targets: seq<ConnId>, c: ConnId)
    ensures Disciplined({}, SyncProgram(c, d, uses, targets))
    ensures Disciplined({}, ReadProgram(d))
    ensures Disciplined({}, SubscribeProgram(c))
    ensures Disciplined({}, TeardownProgram(c))
    ensures Disciplined({}, SLOT_PROGRAM) && Disciplined({}, FORGET_PROGRAM)
    ensures Disciplined({}, ReceiveProgram(targets)) && Disciplined({}, CloseProgram(c))
  {
    ReceiveDisciplined(targets);
    SubmitDisciplined(d, uses, targets);
    RegionThen({}, CloseOnce(c), true, []);
    assert Region(CloseOnce(c)) + [] == Region(CloseOnce(c));
    InSequence({}, SubmitProgram(d, uses, targets), Region(CloseOnce(c)));
    RegionThen({}, Sub(c), true, SubmitProgram(d, uses, targets) + Region(CloseOnce(c)));
    ReadDisciplined(d);
    ConnDisciplined(c);
    RegionThen({}, HubLock, true, []);
    RegionThen({}, EngineMap, true, []);
    assert Region(HubLock) + [] == SLOT_PROGRAM && Region(EngineMap) + [] == FORGET_PROGRAM;
  }

  lemma SubmitDisciplined(d: DocId, uses: nat, targets: seq<ConnId>)
    ensures Disciplined({}, SubmitProgram(d, uses, targets))
  {
    var held := {Doc(d)};
    UnlockLast(Doc(d));
    FanoutThen(held, targets, [Unlock(Doc(d))]);
    RegionThen(held, HubLock, false, Fanout(targets) + [Unlock(Doc(d))]);
    MergesThen(d, uses, COLLECT_TARGETS + (Fanout(targets) + [Unlock(Doc(d))]));
    var body := Merges(d, uses) + (COLLECT_TARGETS + (Fanout(targets) + [Unlock(Doc(d))]));
    assert {} + held == held;
    AcquireThen({}, Doc(d), true, body);
    FindStateThen([Acquire(Doc(d), true)] + body);
  }

  lemma ReceiveDisciplined(targets: seq<ConnId>)
    ensures Disciplined({}, ReceiveProgram(targets))
  {
    FanoutThen({}, targets, []);
    assert Fanout(targets) + [] == Fanout(targets);
    RegionThen({}, HubLock, false, Fanout(targets));
  }

  lemma ReadDisciplined(d: DocId)
    ensures Disciplined({}, ReadProgram(d))
  {
    UnlockLast(Doc(d));
    MergesThen(d, 1, [Unlock(Doc(d))]);
    assert {} + {Doc(d)} == {Doc(d)};
    AcquireThen({}, Doc(d), true, Merges(d, 1) + [Unlock(Doc(d))]);
    FindStateThen([Acquire(Doc(d), true)] + (Merges(d, 1) + [Unlock(Doc(d))]));
  }

  lemma ConnDisciplined(c: ConnId)
    ensures Disciplined({}, SubscribeProgram(c)) && Disciplined({}, TeardownProgram(c))
  {
    RegionThen({}, CloseOnce(c), true, []);
    assert Region(CloseOnce(c)) + [] == Region(CloseOnce(c));
    RegionThen({}, HubLock, true, Region(CloseOnce(c)));
    RegionThen({}, Sub(c), true, Region(HubLock) + Region(CloseOnce(c)));
    UnlockLast(HubLock);
    RegionThen({HubLock}, Sub(c), true, [Unlock(HubLock)]);
    assert {} + {HubLock} == {HubLock};
    AcquireThen({}, HubLock, true, Region(Sub(c)) + [Unlock(HubLock)]);
    RegionThen({}, CloseOnce(c), true, [Acquire(HubLock, true)] + (Region(Sub(c)) + [Unlock(HubLock)]));
  }

  // ----- the scheduler -------------------------------------------------------------------------------------------

  /** `held` maps each lock a goroutine holds to whether it holds it exclusively. */
  datatype Thread = Thread(held: map<Lock, bool>, todo: Program)

  type State = map<nat, Thread>

  datatype Action = Spawn(t: nat, p: Program) | Run(t: nat)

  ghost predicate HeldByOther(s: State, t: nat, l: Lock) {
    exists u :: u in s && u != t && l in s[u].held
  }

  ghost predicate HeldExclusively(s: State, t: nat, l: Lock) {
    exists u :: u in s && u != t && l in s[u].held && s[u].held[l]
  }

  ghost predicate WriterWaits(s: State, t: nat, l: Lock) {
    exists u :: u in s && u != t && s[u].todo != [] && s[u].todo[0] == Acquire(l, true)
  }

  /** An exclusive acquire waits for every holder; a shared one waits for an exclusive holder and stands behind a
      waiting writer. */
  ghost predicate CanRun(s: State, t: nat) {
    t in s && s[t].todo != [] &&
    match s[t].todo[0]
    case Unlock(_) => true
    case Acquire(l, exclusive) =>
      if exclusive then !HeldByOther(s, t, l) else !HeldExclusively(s, t, l) && !WriterWaits(s, t, l)
  }

  function Advance(th: Thread): Thread
    requires th.todo != []
  {
    match th.todo[0]
    case Acquire(l, exclusive) => Thread(th.held[l := exclusive], th.todo[1..])
    case Unlock(l) => Thread(th.held - {l}, th.todo[1..])
  }

  ghost function Step(s: State, a: Action): Option<State> {
    match a
    case Spawn(t, p) => if t in s || !Disciplined({}, p) then None else Some(s[t := Thread(map[], p)])
    case Run(t) => if CanRun(s, t) then Some(s[t := Advance(s[t])]) else None
  }

  ghost predicate Ok(s: State) {
    forall t :: t in s ==> Disciplined(s[t].held.Keys, s[t].todo)
  }

  lemma StepKeepsOk(s: State, a: Action)
    requires Ok(s) && Step(s, a).Some?
    ensures Ok(Step(s, a).value)
  {
    match a
    case Spawn(t, p) =>
      var none: map<Lock, bool> := map[];
      assert none.Keys == {};
    case Run(t) =>
      var th, th' := s[t], Advance(s[t]);
      match th.todo[0]
      case Acquire(l, _) => assert th'.held.Keys == th.held.Keys + {l};
      case Unlock(l) => assert th'.held.Keys == th.held.Keys - {l};
  }

  /** From a blocked goroutine, follow who holds what it waits for: ranks rise, so the search ends at one that can
      run. */
  lemma {:induction false} FindRunnable(s: State, t: nat) returns (u: nat)
    requires Ok(s) && t in s && s[t].todo != []
    ensures CanRun(s, u)
    decreases if s[t].todo[0].Acquire? then MAX_RANK - Rank(s[t].todo[0].lock) else 0, 1
  {
    if CanRun(s, t) {
      return t;
    }
    var l := s[t].todo[0].lock;
    if HeldByOther(s, t, l) {
      u := HolderSearch(s, t, l);
    } else {
      // a shared acquire standing behind a waiting writer, who finds the lock free
      var w :| w in s && w != t && s[w].todo != [] && s[w].todo[0] == Acquire(l, true);
      if CanRun(s, w) {
        u := w;
      } else {
        u := HolderSearch(s, w, l);
      }
    }
  }

  lemma {:induction false} HolderSearch(s: State, t: nat, l: Lock) returns (u: nat)
    requires Ok(s) && HeldByOther(s, t, l)
    ensures CanRun(s, u)
    decreases MAX_RANK - Rank(l), 0
  {
    var v :| v in s && v != t && l in s[v].held;
    assert s[v].todo != [];
    u := FindRunnable(s, v);
  }

  /** No deadlock: however many handlers run, in every reachable state in which one is unfinished, one can step. */
  lemma NoDeadlock(acts: seq<Action>, s: State, t: nat) returns (u: nat)
    requires Exec((m: State, a: Action) => Step(m, a), map[], acts) == Some(s)
    requires t in s && s[t].todo != []
    ensures u in s && CanRun(s, u)
  {
    var step := (m: State, a: Action) => Step(m, a);
    forall m: State, a: Action | Ok(m) && step(m, a).Some?
      ensures Ok(step(m, a).value)
    {
      StepKeepsOk(m, a);
    }
    Invariance(step, (m: State) => Ok(m), map[], acts);
    u := FindRunnable(s, t);
  }
}
