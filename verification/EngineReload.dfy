/** The cost of loading a document again: which periodic snapshots are there, and how long a tail that leaves. For any
    number of nodes, whatever saves fail and whoever dies. */
module EngineReload {
  import opened Core
  import opened Crdt
  import opened Runs
  import opened EngineProtocol
  import opened EngineDurability

  // ----- the invariant -------------------------------------------------------------------------------------------

  /** A submit is on its way to saving under n. */
  ghost predicate Pending(procs: map<Gid, Proc>, n: nat) {
    exists g :: g in procs && BeforeSave(procs[g].pc) && procs[g].pc.seqNo == n
  }

  /** Every due number has its snapshot, unless the save is still to come or was missed. */
  ghost predicate Dense(k: int, size: nat, snaps: map<nat, Bytes>, missed: set<nat>, procs: map<Gid, Proc>) {
    forall n: nat :: 1 <= n <= size && SnapshotDue(k, n) ==> n in snaps || n in missed || Pending(procs, n)
  }

  /** A snapshot that nobody took by hand is a periodic one that was not missed. */
  ghost predicate Accounted(k: int, snaps: map<nat, Bytes>, missed: set<nat>, manual: set<nat>) {
    && (forall n :: n in snaps && n !in manual ==> SnapshotDue(k, n) && n !in missed)
    && (forall n :: n in manual ==> n in snaps)
  }

  /** A save still to come was neither missed nor made. */
  ghost predicate Owed(size: nat, snaps: map<nat, Bytes>, missed: set<nat>, manual: set<nat>, procs: map<Gid, Proc>) {
    && (forall n :: n in missed ==> 1 <= n <= size)
    && (forall g :: g in procs && BeforeSave(procs[g].pc) ==>
                      procs[g].pc.seqNo !in missed && (procs[g].pc.seqNo in snaps ==> procs[g].pc.seqNo in manual))
  }

  ghost predicate Saves(k: int, s: State) {
    && Dense(k, |s.log|, s.snaps, s.missed, s.procs)
    && Accounted(k, s.snaps, s.missed, s.manual)
    && Owed(|s.log|, s.snaps, s.missed, s.manual, s.procs)
  }

  // ----- every step keeps it -------------------------------------------------------------------------------------

  /** Goroutine g moves without committing or passing its save. */
  ghost predicate Same(s: State, s': State, g: Gid) {
    && s'.log == s.log && s'.snaps == s.snaps && s'.missed == s.missed && s'.manual == s.manual
    && g in s'.procs && s'.procs == s.procs[g := s'.procs[g]]
    && (BeforeSave(s'.procs[g].pc) <==> g in s.procs && BeforeSave(s.procs[g].pc))
    && (BeforeSave(s'.procs[g].pc) ==> s'.procs[g].pc.seqNo == s.procs[g].pc.seqNo)
  }

  lemma PendingKept(procs: map<Gid, Proc>, g: Gid, p: Proc, n: nat)
    requires Pending(procs, n)
    requires g in procs && BeforeSave(procs[g].pc) && procs[g].pc.seqNo == n ==> BeforeSave(p.pc) && p.pc.seqNo == n
    ensures Pending(procs[g := p], n)
  {
    var g' :| g' in procs && BeforeSave(procs[g'].pc) && procs[g'].pc.seqNo == n;
    assert g' in procs[g := p] && BeforeSave(procs[g := p][g'].pc);
  }

  lemma SameKeepsSaves(k: int, s: State, s': State, g: Gid)
    requires Saves(k, s) && Same(s, s', g)
    ensures Saves(k, s')
  {
    forall n: nat | Pending(s.procs, n) ensures Pending(s'.procs, n) {
      PendingKept(s.procs, g, s'.procs[g], n);
    }
  }

  lemma InstallIsSame(s: State, g: Gid, newCell: CellId)
    requires InstallDoc(s, g, newCell).Some?
    ensures Same(s, InstallDoc(s, g, newCell).value, g)
  {
  }

  lemma LoadingIsSame(cfg: Config, s: State, a: Action)
    requires a.DoStart? || a.DoLookup? || a.DoReadSnapshot? || a.DoReadOps? || a.DoInstall?
    requires Step(cfg, s, a).Some?
    ensures Same(s, Step(cfg, s, a).value, a.g)
  {
    if a.DoInstall? { InstallIsSame(s, a.g, a.newCell); }
  }

  lemma LockingIsSame(cfg: Config, s: State, a: Action)
    requires a.DoAcquire? || a.DoApply? || (a.DoAppend? && !a.ok) || a.DoEmit?
    requires Step(cfg, s, a).Some?
    ensures Same(s, Step(cfg, s, a).value, a.g)
  {
  }

  lemma EndingIsSame(cfg: Config, s: State, a: Action)
    requires a.DoPublish? || a.DoReturn? || a.DoLatest? || (a.DoSaveManual? && !a.ok) || a.DoExport?
    requires Step(cfg, s, a).Some?
    ensures Same(s, Step(cfg, s, a).value, a.g)
  {
  }

  /** A commit owes the save of its own number. */
  lemma AppendKeepsSaves(cfg: Config, s: State, g: Gid)
    requires Durable(s) && Saves(cfg.snapshotEvery, s) && Append(cfg.am, s, g, true).Some?
    ensures Saves(cfg.snapshotEvery, Append(cfg.am, s, g, true).value)
  {
    var s' := Append(cfg.am, s, g, true).value;
    forall n: nat | Pending(s.procs, n) ensures Pending(s'.procs, n) {
      PendingKept(s.procs, g, s'.procs[g], n);
    }
    assert BeforeSave(s'.procs[g].pc) && s'.procs[g].pc.seqNo == |s.log| + 1;
    assert Pending(s'.procs, |s.log| + 1);
  }

  /** The save is made or missed; no other submit owes the same number. */
  lemma SaveKeepsSaves(cfg: Config, s: State, g: Gid, ok: bool)
    requires Durable(s) && Saves(cfg.snapshotEvery, s) && Save(cfg, s, g, ok).Some?
    ensures Saves(cfg.snapshotEvery, Save(cfg, s, g, ok).value)
  {
    var s' := Save(cfg, s, g, ok).value;
    var n := s.procs[g].pc.seqNo;
    assert OwnsEntry(s.log, s.procs[g], n);
    forall m: nat | m != n && Pending(s.procs, m) ensures Pending(s'.procs, m) {
      PendingKept(s.procs, g, s'.procs[g], m);
    }
  }

  lemma SaveManualKeepsSaves(cfg: Config, s: State, g: Gid)
    requires Saves(cfg.snapshotEvery, s) && SaveManual(cfg.am, s, g, true).Some?
    ensures Saves(cfg.snapshotEvery, SaveManual(cfg.am, s, g, true).value)
  {
    var s' := SaveManual(cfg.am, s, g, true).value;
    forall n: nat | Pending(s.procs, n) ensures Pending(s'.procs, n) {
      PendingKept(s.procs, g, s'.procs[g], n);
    }
  }

  /** What a dying node owed is missed. */
  lemma CrashKeepsSaves(k: int, s: State, node: NodeId)
    requires Durable(s) && Saves(k, s)
    ensures Saves(k, Crash(s, node))
  {
    var s' := Crash(s, node);
    forall n: nat | Pending(s.procs, n) ensures n in s'.missed || Pending(s'.procs, n) {
      var g :| g in s.procs && BeforeSave(s.procs[g].pc) && s.procs[g].pc.seqNo == n;
      assert s.procs[g].node != node ==> g in s'.procs && s'.procs[g] == s.procs[g];
    }
    forall n | n in s'.missed && n !in s.missed
      ensures 1 <= n <= |s.log| && (n in s.snaps ==> n in s.manual)
      ensures forall g :: g in s'.procs && BeforeSave(s'.procs[g].pc) ==> s'.procs[g].pc.seqNo != n
    {
      var g :| g in s.procs && s.procs[g].node == node && BeforeSave(s.procs[g].pc) && s.procs[g].pc.seqNo == n;
      assert OwnsEntry(s.log, s.procs[g], n);
    }
  }

  lemma MoveKeepsSaves(cfg: Config, s: State, a: Action)
    requires Saves(cfg.snapshotEvery, s) && Step(cfg, s, a).Some?
    requires !(a.DoAppend? && a.ok) && !a.DoSave? && !(a.DoSaveManual? && a.ok) && !a.DoCrash? && !a.DoDelete?
             && !a.DoForget?
    ensures Saves(cfg.snapshotEvery, Step(cfg, s, a).value)
  {
    var s' := Step(cfg, s, a).value;
    assert Same(s, s', a.g) by {
      if a.DoAcquire? || a.DoApply? || a.DoAppend? || a.DoEmit? {
        LockingIsSame(cfg, s, a);
      } else if a.DoPublish? || a.DoReturn? || a.DoLatest? || a.DoSaveManual? || a.DoExport? {
        EndingIsSame(cfg, s, a);
      } else {
        LoadingIsSame(cfg, s, a);
      }
    }
    SameKeepsSaves(cfg.snapshotEvery, s, s', a.g);
  }

  lemma StepKeepsSaves(cfg: Config, s: State, a: Action)
    requires Durable(s) && Saves(cfg.snapshotEvery, s) && QuietStep(cfg)(s, a).Some?
    ensures Saves(cfg.snapshotEvery, QuietStep(cfg)(s, a).value)
  {
    if a.DoAppend? && a.ok {
      AppendKeepsSaves(cfg, s, a.g);
    } else if a.DoSave? {
      SaveKeepsSaves(cfg, s, a.g, a.ok);
    } else if a.DoSaveManual? && a.ok {
      SaveManualKeepsSaves(cfg, s, a.g);
    } else if a.DoCrash? {
      CrashKeepsSaves(cfg.snapshotEvery, s, a.node);
    } else if !a.DoDelete? && !a.DoForget? {
      MoveKeepsSaves(cfg, s, a);
    }
  }

  lemma ReachableSaves(cfg: Config, acts: seq<Action>)
    ensures Exec(QuietStep(cfg), INIT, acts).Some? ==>
              Durable(Exec(QuietStep(cfg), INIT, acts).value)
                && Saves(cfg.snapshotEvery, Exec(QuietStep(cfg), INIT, acts).value)
  {
    forall m: State, a: Action | Durable(m) && Saves(cfg.snapshotEvery, m) && QuietStep(cfg)(m, a).Some?
      ensures Durable(QuietStep(cfg)(m, a).value) && Saves(cfg.snapshotEvery, QuietStep(cfg)(m, a).value)
    {
      StepKeepsDurable(cfg, m, a);
      StepKeepsSaves(cfg, m, a);
    }
    InitDurable();
    Invariance(QuietStep(cfg), (s: State) => Durable(s) && Saves(cfg.snapshotEvery, s), INIT, acts);
  }

  // ----- what every run guarantees -------------------------------------------------------------------------------

  /** The largest multiple of k up to n. */
  function LastDue(n: nat, k: int): (m: nat)
    requires k > 0
    ensures m <= n < m + k
    ensures SnapshotDue(k, m)
    ensures forall i: nat :: i <= n && n < i + k && SnapshotDue(k, i) ==> i == m
  {
    LastDueIsOnly(n, k);
    n - n % k
  }

  lemma LastDueIsOnly(n: nat, k: int)
    requires k > 0
    ensures 0 <= n - n % k <= n < n - n % k + k
    ensures SnapshotDue(k, n - n % k)
    ensures forall i: nat :: i <= n && n < i + k && SnapshotDue(k, i) ==> i == n - n % k
  {
    var q := n / k;
    assert n - n % k == q * k;
    MultipleHasNoRemainder(q, k);
    forall i: nat | i <= n && n < i + k && SnapshotDue(k, i)
      ensures i == n - n % k
    {
      OnlyOneDue(n, q, i, i / k, k);
    }
  }

  lemma OnlyOneDue(n: nat, q: nat, i: nat, p: nat, k: int)
    requires k > 0 && q * k <= n < q * k + k && i == p * k && i <= n < i + k
    ensures i == q * k
  {
    SameMultiple(p, q, k);
  }

  lemma SameMultiple(p: int, q: int, k: int)
    requires k > 0 && p * k < q * k + k && q * k < p * k + k
    ensures p == q
  {
    assert p - q >= 1 ==> (p - q) * k >= k;
    assert q - p >= 1 ==> (q - p) * k >= k;
  }

  lemma MultipleHasNoRemainder(q: nat, k: int)
    requires k > 0
    ensures (q * k) % k == 0
  {
    var d, r := (q * k) / k, (q * k) % k;
    assert (q - d) * k == r;
    assert q - d >= 1 ==> (q - d) * k >= k;
    assert q - d <= -1 ==> (q - d) * k <= -k;
  }

  /** What decides the length of a reload. In every run, over any number of nodes, whatever saves failed and whoever
      died: once nobody is between a commit and its save, the tail that loading the document replays is shorter than
      the interval k if and only if the log is, or the save owed at its last multiple of k was not missed, or somebody
      took a snapshot by hand within its last k numbers. */
  lemma ReloadIsShortExactlyWhen(cfg: Config, acts: seq<Action>, s: State)
    requires cfg.snapshotEvery > 0 && Exec(QuietStep(cfg), INIT, acts) == Some(s)
    requires forall g :: g in s.procs ==> !BeforeSave(s.procs[g].pc)
    ensures var k, size := cfg.snapshotEvery, |s.log|;
            |Since(s.log, SnapSeq(s.snaps))| < k
            <==> size < k || LastDue(size, k) !in s.missed || exists n :: n in s.manual && size - k < n <= size
  {
    ReachableSaves(cfg, acts);
    var k, size := cfg.snapshotEvery, |s.log|;
    var due := LastDue(size, k);
    assert forall n :: !Pending(s.procs, n);
    if size >= k && due !in s.missed {
      assert due in s.snaps;
    }
    if size >= k && |Since(s.log, SnapSeq(s.snaps))| < k {
      var top := Highest(s.snaps);
      assert top <= size && size < top + k;
    }
  }

  /** With no save missed at the log's last multiple of k, whatever became of the earlier ones, a reload is short. */
  lemma ReloadIsShort(cfg: Config, acts: seq<Action>, s: State)
    requires cfg.snapshotEvery > 0 && Exec(QuietStep(cfg), INIT, acts) == Some(s)
    requires forall g :: g in s.procs ==> !BeforeSave(s.procs[g].pc)
    requires LastDue(|s.log|, cfg.snapshotEvery) !in s.missed
    ensures |Since(s.log, SnapSeq(s.snaps))| < cfg.snapshotEvery
  {
    ReloadIsShortExactlyWhen(cfg, acts, s);
  }
}
