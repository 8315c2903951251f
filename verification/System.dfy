/** The engine and the fan-out together on one node, over one life of a document: appending commits the entry that is
    broadcast, the broadcast collects and serves the subscribers, and the submit returns when it has ended. */
module System {
  import opened Core
  import opened Crdt
  import opened Runs
  import opened Connection
  import E = EngineProtocol
  import EngineDurability
  import EngineCache
  import D = Delivery

  datatype State = State(e: E.State, d: D.State)

  const INIT := State(E.INIT, D.INIT)

  datatype Action =
    | Engine(a: E.Action)
    | Client(b: D.Action)
    | Append(g: E.Gid)
    | Publish(g: E.Gid)
    | Return(g: E.Gid)
    | Crash

  /** Engine steps that do not touch the log or the broadcast. */
  predicate Internal(a: E.Action) {
    !(a.DoAppend? && a.ok) && !a.DoPublish? && !a.DoReturn? && !a.DoDelete? && !a.DoForget? && !a.DoCrash?
  }

  /** Connection steps; the broadcast steps belong to the submits. */
  predicate OfClient(b: D.Action) {
    !b.Commit? && !b.Collect? && !b.Finish? && !b.Restart?
  }

  ghost function Both(e: Option<E.State>, d: Option<D.State>): Option<State> {
    if e.Some? && d.Some? then Some(State(e.value, d.value)) else None
  }

  ghost function Step(cfg: E.Config, h: NodeId, size: nat, s: State, a: Action): Option<State>
    requires size > 0
  {
    match a
    case Engine(x) => if Internal(x) then Both(EngineCache.HomeStep(cfg, h)(s.e, x), Some(s.d)) else None
    case Client(b) => if OfClient(b) then Both(Some(s.e), D.Step(size, s.d, b)) else None
    case Append(g) =>
      if g !in s.e.procs || !s.e.procs[g].job.Submit? then None
      else
        var job := s.e.procs[g].job;
        Both(E.Append(cfg.am, s.e, g, true), D.Step(size, s.d, D.Commit(job.session, job.payload)))
    case Publish(g) => Both(E.Publish(s.e, g), D.Step(size, s.d, D.Collect))
    case Return(g) => Both(E.Return(s.e, g), D.Step(size, s.d, D.Finish))
    case Crash => Both(Some(E.Crash(s.e, h)), D.Step(size, s.d, D.Restart))
  }

  ghost function Steps(cfg: E.Config, h: NodeId, size: nat): (State, Action) -> Option<State>
    requires size > 0
  {
    (s, a) => Step(cfg, h, size, s, a)
  }

  // ----- the invariant -------------------------------------------------------------------------------------------

  /** The two sides share the log, and the broadcast in progress is that of the submit in its commit phase. */
  ghost predicate Linked(s: State) {
    && s.e.log == s.d.log
    && (forall g :: g in s.e.procs && E.Committing(s.e.procs[g].pc) ==>
                      !s.d.pub.Quiet? && (s.e.procs[g].pc.Published? <==> s.d.pub.Sending?))
    && (!s.d.pub.Quiet? ==> exists g :: g in s.e.procs && E.Committing(s.e.procs[g].pc))
  }

  ghost predicate Ok(am: Automerge, h: NodeId, s: State) {
    EngineCache.Safe(am, h, s.e) && D.Good(s.d) && Linked(s)
  }

  /** Only one submit at a time is in its commit phase. */
  lemma OneCommitter(am: Automerge, h: NodeId, s: State, g: E.Gid)
    requires Ok(am, h, s) && g in s.e.procs && E.Holding(s.e.procs[g].pc)
    ensures forall g' :: g' in s.e.procs && E.Committing(s.e.procs[g'].pc) ==> g' == g
    ensures !E.Committing(s.e.procs[g].pc) ==> s.d.pub.Quiet?
  {
    EngineCache.OnlyHolder(h, s.e, g);
  }

  /** Goroutine g moved, and neither the log nor its part in a broadcast changed. */
  ghost predicate SamePart(e: E.State, e': E.State, g: E.Gid) {
    && e'.log == e.log && g in e'.procs && e'.procs == e.procs[g := e'.procs[g]]
    && (E.Committing(e'.procs[g].pc) <==> g in e.procs && E.Committing(e.procs[g].pc))
    && (e'.procs[g].pc.Published? <==> g in e.procs && e.procs[g].pc.Published?)
  }

  lemma LoadingLeavesCommits(cfg: E.Config, e: E.State, x: E.Action, e': E.State)
    requires x.DoStart? || x.DoLookup? || x.DoReadSnapshot? || x.DoReadOps? || x.DoInstall?
    requires E.Step(cfg, e, x) == Some(e')
    ensures SamePart(e, e', x.g)
  {
  }

  lemma SubmittingLeavesCommits(cfg: E.Config, e: E.State, x: E.Action, e': E.State)
    requires x.DoAcquire? || x.DoApply? || (x.DoAppend? && !x.ok)
    requires E.Step(cfg, e, x) == Some(e')
    ensures SamePart(e, e', x.g)
  {
  }

  lemma SavingLeavesCommits(cfg: E.Config, e: E.State, x: E.Action, e': E.State)
    requires x.DoEmit? || x.DoSave?
    requires E.Step(cfg, e, x) == Some(e')
    ensures SamePart(e, e', x.g)
  {
  }

  lemma ServingLeavesCommits(cfg: E.Config, e: E.State, x: E.Action, e': E.State)
    requires x.DoLatest? || x.DoSaveManual? || x.DoExport?
    requires E.Step(cfg, e, x) == Some(e')
    ensures SamePart(e, e', x.g)
  {
  }

  lemma InternalKeepsLinked(cfg: E.Config, s: State, x: E.Action, e': E.State)
    requires Linked(s) && Internal(x) && E.Step(cfg, s.e, x) == Some(e')
    ensures Linked(State(e', s.d))
  {
    assert SamePart(s.e, e', x.g) by {
      if x.DoStart? || x.DoLookup? || x.DoReadSnapshot? || x.DoReadOps? || x.DoInstall? {
        LoadingLeavesCommits(cfg, s.e, x, e');
      } else if x.DoAcquire? || x.DoApply? || x.DoAppend? {
        SubmittingLeavesCommits(cfg, s.e, x, e');
      } else if x.DoEmit? || x.DoSave? {
        SavingLeavesCommits(cfg, s.e, x, e');
      } else {
        ServingLeavesCommits(cfg, s.e, x, e');
      }
    }
    if !s.d.pub.Quiet? {
      var g :| g in s.e.procs && E.Committing(s.e.procs[g].pc);
      assert g in e'.procs && E.Committing(e'.procs[g].pc);
    }
  }

  lemma AppendKeepsOk(cfg: E.Config, h: NodeId, size: nat, s: State, g: E.Gid)
    requires size > 0 && cfg.am.Laws() && Ok(cfg.am, h, s) && Step(cfg, h, size, s, Append(g)).Some?
    ensures Ok(cfg.am, h, Step(cfg, h, size, s, Append(g)).value)
  {
    var s' := Step(cfg, h, size, s, Append(g)).value;
    var job := s.e.procs[g].job;
    EngineCache.AppendKeepsHome(cfg.am, h, s.e, g, true);
    EngineDurability.AppendKeepsDurable(cfg.am, s.e, g, true);
    D.StepKeepsGood(size, s.d, D.Commit(job.session, job.payload));
    OneCommitter(cfg.am, h, s, g);
    AppendKeepsLinked(cfg, h, size, s, g, s');
  }

  /** Nobody but g is in its commit phase. */
  ghost predicate Alone(s: State, g: E.Gid) {
    && (forall x :: x in s.e.procs && E.Committing(s.e.procs[x].pc) ==> x == g)
    && (g in s.e.procs && !E.Committing(s.e.procs[g].pc) ==> s.d.pub.Quiet?)
  }

  lemma AppendKeepsLinked(cfg: E.Config, h: NodeId, size: nat, s: State, g: E.Gid, s': State)
    requires size > 0 && Linked(s) && Alone(s, g) && Step(cfg, h, size, s, Append(g)) == Some(s')
    ensures Linked(s')
  {
    assert g in s'.e.procs && E.Committing(s'.e.procs[g].pc);
  }

  lemma PublishKeepsLinked(cfg: E.Config, h: NodeId, size: nat, s: State, g: E.Gid, s': State)
    requires size > 0 && Linked(s) && Alone(s, g) && Step(cfg, h, size, s, Publish(g)) == Some(s')
    ensures Linked(s')
  {
    assert g in s'.e.procs && E.Committing(s'.e.procs[g].pc);
  }

  lemma ReturnKeepsLinked(cfg: E.Config, h: NodeId, size: nat, s: State, g: E.Gid, s': State)
    requires size > 0 && Linked(s) && Alone(s, g) && Step(cfg, h, size, s, Return(g)) == Some(s')
    ensures Linked(s')
  {
  }

  lemma PublishKeepsOk(cfg: E.Config, h: NodeId, size: nat, s: State, g: E.Gid)
    requires size > 0 && cfg.am.Laws() && Ok(cfg.am, h, s) && Step(cfg, h, size, s, Publish(g)).Some?
    ensures Ok(cfg.am, h, Step(cfg, h, size, s, Publish(g)).value)
  {
    var s' := Step(cfg, h, size, s, Publish(g)).value;
    EngineCache.PublishKeepsHome(cfg.am, h, s.e, g);
    EngineDurability.PublishKeepsDurable(s.e, g);
    D.StepKeepsGood(size, s.d, D.Collect);
    OneCommitter(cfg.am, h, s, g);
    PublishKeepsLinked(cfg, h, size, s, g, s');
  }

  lemma ReturnKeepsOk(cfg: E.Config, h: NodeId, size: nat, s: State, g: E.Gid)
    requires size > 0 && cfg.am.Laws() && Ok(cfg.am, h, s) && Step(cfg, h, size, s, Return(g)).Some?
    ensures Ok(cfg.am, h, Step(cfg, h, size, s, Return(g)).value)
  {
    var s' := Step(cfg, h, size, s, Return(g)).value;
    EngineCache.ReturnKeepsHome(cfg.am, h, s.e, g);
    EngineDurability.ReturnKeepsDurable(s.e, g);
    D.StepKeepsGood(size, s.d, D.Finish);
    OneCommitter(cfg.am, h, s, g);
    ReturnKeepsLinked(cfg, h, size, s, g, s');
  }

  lemma EngineKeepsOk(cfg: E.Config, h: NodeId, size: nat, s: State, x: E.Action)
    requires size > 0 && cfg.am.Laws() && Ok(cfg.am, h, s) && Step(cfg, h, size, s, Engine(x)).Some?
    ensures Ok(cfg.am, h, Step(cfg, h, size, s, Engine(x)).value)
  {
    EngineCache.StepKeepsHome(cfg, h, s.e, x);
    EngineDurability.StepKeepsDurable(cfg, s.e, x);
    InternalKeepsLinked(cfg, s, x, Step(cfg, h, size, s, Engine(x)).value.e);
  }

  lemma ClientLeavesBroadcast(size: nat, d: D.State, b: D.Action)
    requires size > 0 && OfClient(b) && D.Step(size, d, b).Some?
    ensures D.Step(size, d, b).value.log == d.log
    ensures D.Step(size, d, b).value.pub.Quiet? <==> d.pub.Quiet?
    ensures D.Step(size, d, b).value.pub.Sending? <==> d.pub.Sending?
  {
  }

  lemma ClientKeepsOk(cfg: E.Config, h: NodeId, size: nat, s: State, b: D.Action)
    requires size > 0 && cfg.am.Laws() && Ok(cfg.am, h, s) && Step(cfg, h, size, s, Client(b)).Some?
    ensures Ok(cfg.am, h, Step(cfg, h, size, s, Client(b)).value)
  {
    D.StepKeepsGood(size, s.d, b);
    ClientLeavesBroadcast(size, s.d, b);
  }

  lemma CrashKeepsOk(cfg: E.Config, h: NodeId, size: nat, s: State)
    requires size > 0 && cfg.am.Laws() && Ok(cfg.am, h, s)
    ensures Ok(cfg.am, h, Step(cfg, h, size, s, Crash).value)
  {
    EngineCache.CrashKeepsSafe(cfg, h, s.e);
    D.StepKeepsGood(size, s.d, D.Restart);
    CrashKeepsLinked(cfg, h, size, s, Step(cfg, h, size, s, Crash).value);
  }

  lemma CrashKeepsLinked(cfg: E.Config, h: NodeId, size: nat, s: State, s': State)
    requires size > 0 && Linked(s) && EngineCache.Pointers(h, s.e) && Step(cfg, h, size, s, Crash) == Some(s')
    ensures Linked(s')
  {
    assert forall g :: g !in s'.e.procs;
  }

  lemma StepKeepsOk(cfg: E.Config, h: NodeId, size: nat, s: State, a: Action)
    requires size > 0 && cfg.am.Laws() && Ok(cfg.am, h, s) && Step(cfg, h, size, s, a).Some?
    ensures Ok(cfg.am, h, Step(cfg, h, size, s, a).value)
  {
    match a
    case Engine(x) => EngineKeepsOk(cfg, h, size, s, x);
    case Client(b) => ClientKeepsOk(cfg, h, size, s, b);
    case Append(g) => AppendKeepsOk(cfg, h, size, s, g);
    case Publish(g) => PublishKeepsOk(cfg, h, size, s, g);
    case Return(g) => ReturnKeepsOk(cfg, h, size, s, g);
    case Crash => CrashKeepsOk(cfg, h, size, s);
  }

  lemma ReachableOk(cfg: E.Config, h: NodeId, size: nat, acts: seq<Action>)
    requires size > 0 && cfg.am.Laws()
    ensures Exec(Steps(cfg, h, size), INIT, acts).Some? ==> Ok(cfg.am, h, Exec(Steps(cfg, h, size), INIT, acts).value)
  {
    forall m: State, a: Action | Ok(cfg.am, h, m) && Steps(cfg, h, size)(m, a).Some?
      ensures Ok(cfg.am, h, Steps(cfg, h, size)(m, a).value)
    {
      StepKeepsOk(cfg, h, size, m, a);
    }
    EngineCache.InitSafe(cfg.am, h);
    Invariance(Steps(cfg, h, size), (s: State) => Ok(cfg.am, h, s), INIT, acts);
  }

  // ----- end to end ----------------------------------------------------------------------------------------------

  /** An acked op's broadcast is over. */
  lemma AckedIsBroadcast(am: Automerge, h: NodeId, s: State, op: Op)
    requires Ok(am, h, s) && op in s.e.acked
    ensures 1 <= op.seqNo <= |s.d.log| && s.d.log[op.seqNo - 1] == op
    ensures op.seqNo < |s.d.log| || s.d.pub.Quiet?
  {
    if !s.d.pub.Quiet? {
      var g :| g in s.e.procs && E.Committing(s.e.procs[g].pc);
      assert s.e.procs[g].pc.seqNo == |s.e.log|;
    }
  }

  lemma AckedIsKept(am: Automerge, h: NodeId, s: State, op: Op)
    requires Ok(am, h, s) && op in s.e.acked
    ensures E.Loaded(am, s.e).Some? && Changes(am, op.payload) <= E.Loaded(am, s.e).value
  {
    AckedIsBroadcast(am, h, s, op);
    EngineCache.LoadedWhole(am, s.e);
    FoldHolds(am, s.e.log, op.seqNo - 1);
  }

  lemma AckedIsDelivered(am: Automerge, h: NodeId, s: State, op: Op, c: ConnId, last: int)
    requires Ok(am, h, s) && op in s.e.acked
    requires D.ReplayedFrom(s.d, c, last) && last < op.seqNo && !Echo(s.d.conns[c].inForce, op)
    ensures Carried(Output(s.d.conns[c]), op)
  {
    AckedIsBroadcast(am, h, s, op);
    D.ReplayedIsCaughtUp(s.d, c, last);
    D.CaughtUp(s.d, c, op.seqNo);
  }

  /** End to end, for every interleaving of submits, loads, snapshots, subscribes, replays, writes and crashes: every op
      ever acked, by a goroutine that may have died with its node since, is the entry at its number, and no number was
      acked twice; loading the document from the store yields its changes; and every open connection that has replayed
      from a cursor below its number has been sent the op or has it queued, unless it reached the connection while the
      author's session was the one recorded there. */
  lemma AckedOpIsKeptAndDelivered(cfg: E.Config, h: NodeId, size: nat, acts: seq<Action>, s: State, op: Op)
    requires size > 0 && cfg.am.Laws() && Exec(Steps(cfg, h, size), INIT, acts) == Some(s)
    requires op in s.e.acked
    ensures 1 <= op.seqNo <= |s.e.log| && s.e.log[op.seqNo - 1] == op
    ensures EngineDurability.Distinct(s.e.acked)
    ensures E.Loaded(cfg.am, s.e).Some? && Changes(cfg.am, op.payload) <= E.Loaded(cfg.am, s.e).value
    ensures forall c, last :: D.ReplayedFrom(s.d, c, last) && last < op.seqNo && !Echo(s.d.conns[c].inForce, op)
                              ==> Carried(Output(s.d.conns[c]), op)
  {
    ReachableOk(cfg, h, size, acts);
    AckedIsBroadcast(cfg.am, h, s, op);
    AckedIsKept(cfg.am, h, s, op);
    forall c, last | D.ReplayedFrom(s.d, c, last) && last < op.seqNo && !Echo(s.d.conns[c].inForce, op)
      ensures Carried(Output(s.d.conns[c]), op)
    {
      AckedIsDelivered(cfg.am, h, s, op, c, last);
    }
  }

  /** A step of the broadcast in progress, on its way from the commit to the ack. */
  predicate OfBroadcast(a: Action) {
    (a.Engine? && (a.a.DoEmit? || a.a.DoSave?)) || a.Publish? || (a.Client? && a.b.Deliver?) || a.Return?
  }

  lemma DeliverIsEnabled(cfg: E.Config, h: NodeId, size: nat, s: State, c: ConnId)
    requires size > 0 && D.Good(s.d) && s.d.pub.Sending? && c in s.d.pub.todo
    ensures Step(cfg, h, size, s, Client(D.Deliver(c, false))).Some?
  {
  }

  /** The next region of the committing submit, once nobody is left to be served. */
  function NextOf(g: E.Gid, pc: E.Pc): Action {
    if pc.Appended? then Engine(E.DoEmit(g)) else if pc.Emitted? then Engine(E.DoSave(g, true))
    else if pc.Saved? then Publish(g) else Return(g)
  }

  lemma NextIsEnabled(cfg: E.Config, h: NodeId, size: nat, s: State, g: E.Gid)
    requires size > 0 && Linked(s) && g in s.e.procs && E.Committing(s.e.procs[g].pc)
    requires s.e.procs[g].pc.cell in s.e.cells && s.e.procs[g].job.Submit?
    requires s.d.pub.Sending? ==> s.d.pub.todo == {}
    ensures Step(cfg, h, size, s, NextOf(g, s.e.procs[g].pc)).Some?
  {
  }

  /** A broadcast in progress can always go on: whatever the connections do, its next step is enabled. */
  lemma BroadcastGoesOn(cfg: E.Config, h: NodeId, size: nat, acts: seq<Action>, s: State) returns (a: Action)
    requires size > 0 && cfg.am.Laws() && Exec(Steps(cfg, h, size), INIT, acts) == Some(s) && !s.d.pub.Quiet?
    ensures OfBroadcast(a) && Step(cfg, h, size, s, a).Some?
  {
    ReachableOk(cfg, h, size, acts);
    if s.d.pub.Sending? && s.d.pub.todo != {} {
      var c :| c in s.d.pub.todo;
      DeliverIsEnabled(cfg, h, size, s, c);
      a := Client(D.Deliver(c, false));
    } else {
      var g :| g in s.e.procs && E.Committing(s.e.procs[g].pc);
      EngineCache.OnlyHolder(h, s.e, g);
      assert EngineDurability.OwnsEntry(s.e.log, s.e.procs[g], s.e.procs[g].pc.seqNo);
      NextIsEnabled(cfg, h, size, s, g);
      a := NextOf(g, s.e.procs[g].pc);
    }
  }

  /** Joining the two sides forbids neither anything: in every state, a step of the engine that touches neither
      log nor broadcast, and any step of a connection, is enabled in the joint system exactly when it is on its own
      side; the broadcast's own steps are covered by `CommitNeverWaits` and `BroadcastGoesOn`. */
  lemma SidesAreFree(cfg: E.Config, h: NodeId, size: nat, s: State, x: E.Action, b: D.Action)
    requires size > 0
    ensures Internal(x) ==> (Step(cfg, h, size, s, Engine(x)).Some? <==> EngineCache.HomeStep(cfg, h)(s.e, x).Some?)
    ensures OfClient(b) ==> (Step(cfg, h, size, s, Client(b)).Some? <==> D.Step(size, s.d, b).Some?)
  {
  }

  /** The fan-out never holds up a commit: whenever the engine can append, the broadcast slot is free. */
  lemma CommitNeverWaits(cfg: E.Config, h: NodeId, size: nat, acts: seq<Action>, s: State, g: E.Gid)
    requires size > 0 && cfg.am.Laws() && Exec(Steps(cfg, h, size), INIT, acts) == Some(s)
    requires E.Append(cfg.am, s.e, g, true).Some?
    ensures Step(cfg, h, size, s, Append(g)).Some?
  {
    ReachableOk(cfg, h, size, acts);
    OneCommitter(cfg.am, h, s, g);
  }
}
