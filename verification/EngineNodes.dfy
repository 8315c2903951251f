/** Cached documents when several nodes serve one document. A node's docState knows the entries it was loaded from and
    those appended through it; what other nodes commit after the load never reaches it. So a snapshot taken of it may
    lack entries, and this module says exactly when it does. */
module EngineNodes {
  import opened Core
  import opened Crdt
  import opened Runs
  import opened EngineProtocol
  import opened EngineDurability
  import opened EngineCache

  // ----- what a docState knows ------------------------------------------------------------------------------------

  /** The changes of the entries a docState was loaded from or has appended. */
  function Known(am: Automerge, log: seq<Op>, loaded: nat, own: set<nat>): Doc {
    if log == [] then {}
    else
      var n := |log|;
      Known(am, log[..n - 1], loaded, own) + if n <= loaded || n in own then Changes(am, log[n - 1].payload) else {}
  }

  lemma KnownSnoc(am: Automerge, log: seq<Op>, op: Op, loaded: nat, own: set<nat>)
    ensures Known(am, log + [op], loaded, own)
            == Known(am, log, loaded, own)
              + if |log| + 1 <= loaded || |log| + 1 in own then Changes(am, op.payload) else {}
  {
    assert (log + [op])[..|log|] == log;
  }

  /** Numbers beyond the log do not matter. */
  lemma {:induction false} KnownIgnores(am: Automerge, log: seq<Op>, loaded: nat, own: set<nat>, n: nat)
    requires n > |log|
    ensures Known(am, log, loaded, own + {n}) == Known(am, log, loaded, own)
    decreases |log|
  {
    if log != [] {
      KnownIgnores(am, log[..|log| - 1], loaded, own, n);
    }
  }

  /** Entries beyond what it knows do not matter. */
  lemma {:induction false} KnownPrefix(am: Automerge, log: seq<Op>, loaded: nat, own: set<nat>, n: nat)
    requires loaded <= n <= |log| && forall i :: i in own ==> i <= n
    ensures Known(am, log, loaded, own) == Known(am, log[..n], loaded, own)
    decreases |log|
  {
    if |log| == n {
      assert log[..n] == log;
    } else {
      var rest := log[..|log| - 1];
      KnownPrefix(am, rest, loaded, own, n);
      assert rest[..n] == log[..n];
    }
  }

  lemma {:induction false} KnownLoaded(am: Automerge, log: seq<Op>, loaded: nat)
    requires loaded <= |log|
    ensures Known(am, log, loaded, {}) == Fold(am, log[..loaded])
    decreases |log|
  {
    if log == [] {
    } else if |log| == loaded {
      var rest := log[..|log| - 1];
      KnownAll(am, rest, loaded);
      assert log[..loaded] == log;
    } else {
      var rest := log[..|log| - 1];
      KnownLoaded(am, rest, loaded);
      assert rest[..loaded] == log[..loaded];
    }
  }

  lemma {:induction false} KnownAll(am: Automerge, log: seq<Op>, loaded: nat)
    requires |log| <= loaded
    ensures Known(am, log, loaded, {}) == Fold(am, log)
    decreases |log|
  {
    if log != [] {
      KnownAll(am, log[..|log| - 1], loaded);
    }
  }

  /** Entry i was committed elsewhere after the load. */
  predicate Foreign(loaded: nat, own: set<nat>, i: nat) {
    loaded < i && i !in own
  }

  /** The changes of the foreign entries up to the end of `log` are all in d. */
  ghost predicate HasForeign(am: Automerge, log: seq<Op>, loaded: nat, own: set<nat>, d: Doc) {
    forall i :: 0 <= i < |log| && Foreign(loaded, own, i + 1) ==> Changes(am, log[i].payload) <= d
  }

  /** A document that has what it knows has the whole log if and only if it has the foreign entries too. */
  lemma {:induction false} WholeExactlyWhen(am: Automerge, log: seq<Op>, loaded: nat, own: set<nat>, d: Doc)
    requires Known(am, log, loaded, own) <= d
    ensures Fold(am, log) <= d <==> HasForeign(am, log, loaded, own, d)
    decreases |log|
  {
    if log != [] {
      var rest := log[..|log| - 1];
      WholeExactlyWhen(am, rest, loaded, own, d);
      assert forall i :: 0 <= i < |rest| ==> rest[i] == log[i];
    }
  }

  lemma {:induction false} KnownInFold(am: Automerge, log: seq<Op>, loaded: nat, own: set<nat>)
    ensures Known(am, log, loaded, own) <= Fold(am, log)
    decreases |log|
  {
    if log != [] {
      KnownInFold(am, log[..|log| - 1], loaded, own);
    }
  }

  // ----- the invariant -------------------------------------------------------------------------------------------

  /** The changes merged into docState c by a submit whose append has not happened yet. */
  ghost function Merging(am: Automerge, procs: map<Gid, Proc>, c: CellId, owner: Option<Gid>): set<Change> {
    if owner.Some? && owner.value in procs && procs[owner.value].pc == Applied(c) then Unlogged(am, procs[owner.value])
      else {}
  }

  /** A docState holds what it knows, and beyond that only refused or unlogged payloads. */
  ghost predicate CellOk(am: Automerge, log: seq<Op>, refused: set<Change>, procs: map<Gid, Proc>, c: CellId,
                         cell: Cell) {
    && cell.loaded <= |log| && (forall i :: i in cell.own ==> i <= |log|)
    && Known(am, log, cell.loaded, cell.own) + Merging(am, procs, c, cell.owner) <= cell.doc
    && cell.doc <= Known(am, log, cell.loaded, cell.own) + refused + Merging(am, procs, c, cell.owner)
  }

  /** Nothing the docState knows is numbered above n. */
  ghost predicate UpTo(cell: Cell, n: nat) {
    cell.loaded <= n && forall i :: i in cell.own ==> i <= n
  }

  ghost predicate ProcOk(am: Automerge, s: State, g: Gid)
    requires g in s.procs
  {
    var p := s.procs[g];
    && (HasCell(p.pc) ==> p.node in s.entry && p.pc.cell == s.entry[p.node] && p.pc.cell in s.cells)
    && (Holding(p.pc) ==> s.cells[p.pc.cell].owner == Some(g))
    && (p.pc.Applied? ==> p.job.Submit? && Decodes(am, p.job.payload))
    && (Committing(p.pc) ==> UpTo(s.cells[p.pc.cell], p.pc.seqNo) && p.pc.seqNo <= |s.log|)
    && (p.pc.Sized? ==> UpTo(s.cells[p.pc.cell], p.pc.latest) && p.pc.latest <= |s.log|)
    && (p.pc.ReadOps? ==> StandsFor(am, s, p.pc.base, p.pc.atSeq))
    && (p.pc.Install? ==>
          p.pc.at <= |s.log| && Fold(am, s.log[..p.pc.at]) <= p.pc.doc <= Fold(am, s.log[..p.pc.at]) + s.refused)
  }

  ghost predicate Entries(am: Automerge, s: State) {
    && (forall n :: n in s.entry ==>
                      s.entry[n] in s.cells && CellOk(am, s.log, s.refused, s.procs, s.entry[n], s.cells[s.entry[n]]))
    && (forall n, m :: n in s.entry && m in s.entry && n != m ==> s.entry[n] != s.entry[m])
  }

  /** Everything but the stored snapshots. */
  ghost predicate Tracked(am: Automerge, s: State) {
    AllDecode(am, s.log) && Entries(am, s) && forall g :: g in s.procs ==> ProcOk(am, s, g)
  }

  // ----- steps that save nothing ----------------------------------------------------------------------------------

  /** The log grows by at most one entry, which nobody else appended. */
  ghost predicate Extends(log: seq<Op>, log': seq<Op>) {
    log' == log || (|log'| == |log| + 1 && log'[..|log|] == log)
  }

  lemma CellKept(am: Automerge, s: State, s': State, c: CellId, cell: Cell)
    requires CellOk(am, s.log, s.refused, s.procs, c, cell)
    requires Extends(s.log, s'.log) && s.refused <= s'.refused
    requires Merging(am, s'.procs, c, cell.owner) == Merging(am, s.procs, c, cell.owner)
    ensures CellOk(am, s'.log, s'.refused, s'.procs, c, cell)
  {
    if s'.log != s.log {
      KnownSnoc(am, s.log, s'.log[|s.log|], cell.loaded, cell.own);
      assert s'.log == s.log + [s'.log[|s.log|]];
    }
  }

  lemma ProcKept(am: Automerge, s: State, s': State, g: Gid)
    requires g in s.procs && ProcOk(am, s, g) && g in s'.procs && s'.procs[g] == s.procs[g]
    requires Extends(s.log, s'.log) && s.refused <= s'.refused
    requires HasCell(s.procs[g].pc) ==>
               s.procs[g].node in s'.entry && s'.entry[s.procs[g].node] == s.entry[s.procs[g].node]
    requires HasCell(s.procs[g].pc) ==> s.procs[g].pc.cell in s'.cells
    requires Holding(s.procs[g].pc) ==> s'.cells[s.procs[g].pc.cell] == s.cells[s.procs[g].pc.cell]
    ensures ProcOk(am, s', g)
  {
    var pc := s.procs[g].pc;
    if pc.ReadOps? {
      assert s'.log[..pc.atSeq] == s.log[..pc.atSeq];
    } else if pc.Install? {
      assert s'.log[..pc.at] == s.log[..pc.at];
    }
  }

  /** Goroutine g moves, neither from nor to a place with the lock; nothing else changes. */
  lemma MoveKeepsTracked(am: Automerge, s: State, s': State, g: Gid)
    requires Tracked(am, s) && g in s'.procs && s' == s.(procs := s.procs[g := s'.procs[g]])
    requires (g in s.procs ==> !Holding(s.procs[g].pc)) && !Holding(s'.procs[g].pc)
    requires ProcOk(am, s', g)
    ensures Tracked(am, s')
  {
    forall x | x in s.procs && x != g ensures ProcOk(am, s', x) {
      ProcKept(am, s, s', x);
    }
    MoveKeepsEntries(am, s, s', g);
  }

  lemma MoveKeepsEntries(am: Automerge, s: State, s': State, g: Gid)
    requires Entries(am, s) && g in s'.procs && s' == s.(procs := s.procs[g := s'.procs[g]])
    requires (g in s.procs ==> !Holding(s.procs[g].pc)) && !Holding(s'.procs[g].pc)
    ensures Entries(am, s')
  {
    forall n | n in s.entry
      ensures CellOk(am, s'.log, s'.refused, s'.procs, s.entry[n], s.cells[s.entry[n]])
    {
      CellKept(am, s, s', s.entry[n], s.cells[s.entry[n]]);
    }
  }

  lemma StartKeepsTracked(am: Automerge, s: State, g: Gid, node: NodeId, job: Job)
    requires Tracked(am, s) && Start(s, g, node, job).Some?
    ensures Tracked(am, Start(s, g, node, job).value)
  {
    MoveKeepsTracked(am, s, Start(s, g, node, job).value, g);
  }

  lemma LookUpKeepsTracked(am: Automerge, s: State, g: Gid)
    requires Tracked(am, s) && LookUp(s, g).Some?
    ensures Tracked(am, LookUp(s, g).value)
  {
    MoveKeepsTracked(am, s, LookUp(s, g).value, g);
  }

  lemma GetSnapshotKeepsTracked(am: Automerge, s: State, g: Gid, ok: bool)
    requires Tracked(am, s) && Snapshots(am, s) && GetSnapshot(s, g, ok).Some?
    ensures Tracked(am, GetSnapshot(s, g, ok).value)
  {
    LoadedWhole(am, s);
    MoveKeepsTracked(am, s, GetSnapshot(s, g, ok).value, g);
  }

  lemma GetOpsKeepsTracked(am: Automerge, s: State, g: Gid, ok: bool)
    requires Tracked(am, s) && GetOps(am, s, g, ok).Some?
    ensures Tracked(am, GetOps(am, s, g, ok).value)
  {
    assert ProcOk(am, s, g);
    StandsForWhole(am, s, s.procs[g].pc.base, s.procs[g].pc.atSeq);
    assert s.log[..|s.log|] == s.log;
    MoveKeepsTracked(am, s, GetOps(am, s, g, ok).value, g);
  }

  /** A new docState knows what it was loaded from. */
  lemma NewCellOk(am: Automerge, s: State, s': State, g: Gid, newCell: CellId)
    requires g in s.procs && ProcOk(am, s, g) && InstallDoc(s, g, newCell) == Some(s') && s.procs[g].node !in s.entry
    ensures CellOk(am, s'.log, s'.refused, s'.procs, newCell, s'.cells[newCell])
  {
    KnownLoaded(am, s.log, s.procs[g].pc.at);
  }

  /** The other goroutines when g moves and docState c is new or g's own. */
  lemma OthersKept(am: Automerge, s: State, s': State, g: Gid, c: CellId, x: Gid)
    requires x in s.procs && x != g && ProcOk(am, s, x)
    requires g in s'.procs && s'.procs == s.procs[g := s'.procs[g]]
    requires Extends(s.log, s'.log) && s.refused <= s'.refused
    requires forall n :: n in s.entry ==> n in s'.entry && s'.entry[n] == s.entry[n]
    requires c in s'.cells && s'.cells == s.cells[c := s'.cells[c]]
    requires c in s.cells ==> s.cells[c].owner == Some(g) || s.cells[c].owner.None?
    ensures ProcOk(am, s', x)
  {
    ProcKept(am, s, s', x);
  }

  /** The other docStates. */
  lemma OtherCellsKept(am: Automerge, s: State, s': State, g: Gid, c: CellId, n: NodeId)
    requires Entries(am, s) && n in s.entry && s.entry[n] != c
    requires g in s'.procs && s'.procs == s.procs[g := s'.procs[g]]
    requires Extends(s.log, s'.log) && s.refused <= s'.refused
    requires c in s'.cells && s'.cells == s.cells[c := s'.cells[c]]
    requires g in s.procs && HasCell(s.procs[g].pc) ==> s.procs[g].pc.cell == c
    requires HasCell(s'.procs[g].pc) ==> s'.procs[g].pc.cell == c
    ensures s.entry[n] in s'.cells && CellOk(am, s'.log, s'.refused, s'.procs, s.entry[n], s'.cells[s.entry[n]])
  {
    CellKept(am, s, s', s.entry[n], s.cells[s.entry[n]]);
  }

  lemma NewEntryKeepsEntries(am: Automerge, s: State, s': State, g: Gid, newCell: CellId)
    requires Tracked(am, s) && InstallDoc(s, g, newCell) == Some(s') && s.procs[g].node !in s.entry
    ensures Entries(am, s')
  {
    assert ProcOk(am, s, g);
    NewCellOk(am, s, s', g, newCell);
    forall n | n in s.entry
      ensures s.entry[n] != newCell && CellOk(am, s'.log, s'.refused, s'.procs, s.entry[n], s'.cells[s.entry[n]])
    {
      OtherCellsKept(am, s, s', g, newCell, n);
    }
  }

  lemma NewEntryKeepsProcs(am: Automerge, s: State, s': State, g: Gid, newCell: CellId)
    requires Tracked(am, s) && InstallDoc(s, g, newCell) == Some(s') && s.procs[g].node !in s.entry
    ensures forall x :: x in s'.procs ==> ProcOk(am, s', x)
  {
    forall x | x in s.procs && x != g ensures ProcOk(am, s', x) {
      OthersKept(am, s, s', g, newCell, x);
    }
  }

  lemma InstallKeepsTracked(am: Automerge, s: State, g: Gid, newCell: CellId)
    requires Tracked(am, s) && InstallDoc(s, g, newCell).Some?
    ensures Tracked(am, InstallDoc(s, g, newCell).value)
  {
    var s' := InstallDoc(s, g, newCell).value;
    if s.procs[g].node in s.entry {
      MoveKeepsTracked(am, s, s', g);
    } else {
      NewEntryKeepsEntries(am, s, s', g, newCell);
      NewEntryKeepsProcs(am, s, s', g, newCell);
    }
  }

  /** A step of a lock holder: it may extend the log and changes its own docState only. */
  ghost predicate HolderStep(s: State, s': State, g: Gid, c: CellId) {
    && g in s.procs && HasCell(s.procs[g].pc) && c == s.procs[g].pc.cell
    && g in s'.procs && s'.procs == s.procs[g := s'.procs[g]] && s'.entry == s.entry
    && c in s'.cells && s'.cells == s.cells[c := s'.cells[c]]
    && Extends(s.log, s'.log) && s.refused <= s'.refused
    && (HasCell(s'.procs[g].pc) ==> s'.procs[g].pc.cell == c)
  }

  lemma HolderKeepsEntries(am: Automerge, s: State, s': State, g: Gid, c: CellId)
    requires Entries(am, s) && HolderStep(s, s', g, c)
    requires CellOk(am, s'.log, s'.refused, s'.procs, c, s'.cells[c])
    ensures Entries(am, s')
  {
    forall n | n in s.entry && s.entry[n] != c
      ensures s.entry[n] in s'.cells && CellOk(am, s'.log, s'.refused, s'.procs, s.entry[n], s'.cells[s.entry[n]])
    {
      OtherCellsKept(am, s, s', g, c, n);
    }
  }

  lemma HolderKeepsTracked(am: Automerge, s: State, s': State, g: Gid, c: CellId)
    requires Tracked(am, s) && HolderStep(s, s', g, c) && AllDecode(am, s'.log)
    requires c in s.cells && (s.cells[c].owner == Some(g) || s.cells[c].owner.None?)
    requires CellOk(am, s'.log, s'.refused, s'.procs, c, s'.cells[c]) && ProcOk(am, s', g)
    ensures Tracked(am, s')
  {
    HolderKeepsEntries(am, s, s', g, c);
    forall x | x in s.procs && x != g ensures ProcOk(am, s', x) {
      OthersKept(am, s, s', g, c, x);
    }
  }

  lemma AcquireKeepsTracked(am: Automerge, s: State, g: Gid)
    requires Tracked(am, s) && AcquireLock(s, g).Some?
    ensures Tracked(am, AcquireLock(s, g).value)
  {
    assert ProcOk(am, s, g);
    HolderKeepsTracked(am, s, AcquireLock(s, g).value, g, s.procs[g].pc.cell);
  }

  /** The holder's docState before the step. */
  lemma HeldCell(am: Automerge, s: State, g: Gid)
    requires Tracked(am, s) && g in s.procs && Holding(s.procs[g].pc)
    ensures ProcOk(am, s, g) && s.procs[g].pc.cell in s.cells
    ensures var c := s.procs[g].pc.cell;
            CellOk(am, s.log, s.refused, s.procs, c, s.cells[c]) && s.cells[c].owner == Some(g)
  {
    assert ProcOk(am, s, g);
  }

  /** The merge, by an automatic result: the changes are in flight, or nothing changed. */
  lemma MergedCell(am: Automerge, s: State, s': State, g: Gid, r: Resolution, c: CellId)
    requires Automatic(am, r) && Apply(am, s, g, r) == Some(s') && c == s.procs[g].pc.cell
    ensures s'.log == s.log && s'.refused == s.refused && c in s.cells && c in s'.cells
    ensures var p, cell := s.procs[g], s.cells[c];
            if Decodes(am, p.job.payload) then
              s'.cells[c] == cell.(doc := cell.doc + Changes(am, p.job.payload)) && s'.procs[g] == p.(pc := Applied(c))
            else s'.cells[c] == cell.(owner := None) && s'.procs[g] == p.(pc := Failed)
  {
  }

  /** A docState whose lock holder had nothing in flight takes in a change, or is let go of. */
  lemma GrownCellOk(am: Automerge, log: seq<Op>, refused: set<Change>, procs: map<Gid, Proc>, g: Gid, p: Proc,
                    c: CellId, cell: Cell)
    requires CellOk(am, log, refused, procs, c, cell) && cell.owner == Some(g) && g in procs && procs[g].pc.Locked?
    requires p.pc == Applied(c) && p.job.Submit?
    ensures CellOk(am, log, refused, procs[g := p], c, cell.(doc := cell.doc + Changes(am, p.job.payload)))
  {
    assert Merging(am, procs, c, Some(g)) == {} && Merging(am, procs[g := p], c, Some(g)) == Changes(am, p.job.payload);
  }

  lemma ReleasedCellOk(am: Automerge, log: seq<Op>, refused: set<Change>, procs: map<Gid, Proc>, g: Gid, p: Proc,
                       c: CellId, cell: Cell)
    requires CellOk(am, log, refused, procs, c, cell) && cell.owner == Some(g) && g in procs && !procs[g].pc.Applied?
    ensures CellOk(am, log, refused, procs[g := p], c, cell.(owner := None))
  {
    assert Merging(am, procs, c, Some(g)) == {} && Merging(am, procs[g := p], c, None) == {};
  }

  lemma MergedCellOk(am: Automerge, s: State, s': State, g: Gid, r: Resolution, c: CellId)
    requires Tracked(am, s) && Automatic(am, r) && Apply(am, s, g, r) == Some(s') && c == s.procs[g].pc.cell
    ensures c in s'.cells && CellOk(am, s'.log, s'.refused, s'.procs, c, s'.cells[c])
  {
    HeldCell(am, s, g);
    MergedCell(am, s, s', g, r, c);
    assert s'.procs == s.procs[g := s'.procs[g]];
    if Decodes(am, s.procs[g].job.payload) {
      GrownCellOk(am, s.log, s.refused, s.procs, g, s'.procs[g], c, s.cells[c]);
    } else {
      ReleasedCellOk(am, s.log, s.refused, s.procs, g, s'.procs[g], c, s.cells[c]);
    }
  }

  lemma ApplyKeepsTracked(am: Automerge, s: State, g: Gid, r: Resolution)
    requires Tracked(am, s) && Automatic(am, r) && Apply(am, s, g, r).Some?
    ensures Tracked(am, Apply(am, s, g, r).value)
  {
    var s', c := Apply(am, s, g, r).value, s.procs[g].pc.cell;
    HeldCell(am, s, g);
    MergedCell(am, s, s', g, r, c);
    MergedCellOk(am, s, s', g, r, c);
    HolderKeepsTracked(am, s, s', g, c);
  }

  lemma RefusedKeepsTracked(am: Automerge, s: State, g: Gid)
    requires Tracked(am, s) && Append(am, s, g, false).Some?
    ensures Tracked(am, Append(am, s, g, false).value)
  {
    HeldCell(am, s, g);
    HolderKeepsTracked(am, s, Append(am, s, g, false).value, g, s.procs[g].pc.cell);
  }

  /** The docState knows the entry it appends. */
  lemma AppendedCellOk(am: Automerge, s: State, s': State, g: Gid, c: CellId)
    requires Tracked(am, s) && Append(am, s, g, true) == Some(s') && c == s.procs[g].pc.cell
    ensures c in s'.cells && CellOk(am, s'.log, s'.refused, s'.procs, c, s'.cells[c])
  {
    HeldCell(am, s, g);
    var cell, n := s.cells[c], |s.log| + 1;
    KnownSnoc(am, s.log, OpOf(s.procs[g], n), cell.loaded, cell.own + {n});
    KnownIgnores(am, s.log, cell.loaded, cell.own, n);
  }

  lemma AppendKeepsTracked(am: Automerge, s: State, g: Gid)
    requires Tracked(am, s) && Append(am, s, g, true).Some?
    ensures Tracked(am, Append(am, s, g, true).value)
  {
    var s', c := Append(am, s, g, true).value, s.procs[g].pc.cell;
    HeldCell(am, s, g);
    AppendedCellOk(am, s, s', g, c);
    assert s'.log[..|s.log|] == s.log;
    HolderKeepsTracked(am, s, s', g, c);
  }

  lemma EmitKeepsTracked(am: Automerge, s: State, g: Gid)
    requires Tracked(am, s) && Emit(s, g).Some?
    ensures Tracked(am, Emit(s, g).value)
  {
    HeldCell(am, s, g);
    HolderKeepsTracked(am, s, Emit(s, g).value, g, s.procs[g].pc.cell);
  }

  lemma SaveKeepsTracked(cfg: Config, s: State, g: Gid, ok: bool)
    requires Tracked(cfg.am, s) && Save(cfg, s, g, ok).Some?
    ensures Tracked(cfg.am, Save(cfg, s, g, ok).value)
  {
    HeldCell(cfg.am, s, g);
    HolderKeepsTracked(cfg.am, s, Save(cfg, s, g, ok).value, g, s.procs[g].pc.cell);
  }

  lemma PublishKeepsTracked(am: Automerge, s: State, g: Gid)
    requires Tracked(am, s) && Publish(s, g).Some?
    ensures Tracked(am, Publish(s, g).value)
  {
    HeldCell(am, s, g);
    HolderKeepsTracked(am, s, Publish(s, g).value, g, s.procs[g].pc.cell);
  }

  lemma ReturnKeepsTracked(am: Automerge, s: State, g: Gid)
    requires Tracked(am, s) && Return(s, g).Some?
    ensures Tracked(am, Return(s, g).value)
  {
    HeldCell(am, s, g);
    HolderKeepsTracked(am, s, Return(s, g).value, g, s.procs[g].pc.cell);
  }

  lemma GetLatestKeepsTracked(am: Automerge, s: State, g: Gid)
    requires Tracked(am, s) && GetLatest(s, g).Some?
    ensures Tracked(am, GetLatest(s, g).value)
  {
    HeldCell(am, s, g);
    HolderKeepsTracked(am, s, GetLatest(s, g).value, g, s.procs[g].pc.cell);
  }

  lemma SaveManualKeepsTracked(am: Automerge, s: State, g: Gid, ok: bool)
    requires Tracked(am, s) && SaveManual(am, s, g, ok).Some?
    ensures Tracked(am, SaveManual(am, s, g, ok).value)
  {
    var s', c := SaveManual(am, s, g, ok).value, s.procs[g].pc.cell;
    HeldCell(am, s, g);
    ReleasedCellOk(am, s.log, s.refused, s.procs, g, s'.procs[g], c, s.cells[c]);
    HolderKeepsTracked(am, s, s', g, c);
  }

  lemma ExportKeepsTracked(am: Automerge, s: State, g: Gid)
    requires Tracked(am, s) && ExportDoc(s, g).Some?
    ensures Tracked(am, ExportDoc(s, g).value)
  {
    HeldCell(am, s, g);
    HolderKeepsTracked(am, s, ExportDoc(s, g).value, g, s.procs[g].pc.cell);
  }

  lemma CrashKeepsTracked(am: Automerge, s: State, node: NodeId)
    requires Tracked(am, s)
    ensures Tracked(am, Crash(s, node))
  {
    var s' := Crash(s, node);
    forall g | g in s'.procs ensures ProcOk(am, s', g) {
      assert ProcOk(am, s, g);
      ProcKept(am, s, s', g);
    }
    forall n | n in s'.entry
      ensures CellOk(am, s'.log, s'.refused, s'.procs, s'.entry[n], s'.cells[s'.entry[n]])
    {
      var c := s.entry[n];
      var owner := s.cells[c].owner;
      if owner.Some? && owner.value in s.procs && s.procs[owner.value].pc == Applied(c) {
        assert ProcOk(am, s, owner.value);
        assert s.procs[owner.value].node == n;
      }
      CellKept(am, s, s', c, s.cells[c]);
    }
  }

  // ----- runs of any number of nodes ------------------------------------------------------------------------------

  /** Nobody deletes the document, and the resolver never replaces it. */
  ghost predicate Shared(am: Automerge, a: Action) {
    !a.DoDelete? && !a.DoForget? && (a.DoApply? ==> Automatic(am, a.r))
  }

  ghost function NodesStep(cfg: Config): (State, Action) -> Option<State> {
    (s, a) => if Shared(cfg.am, a) then Step(cfg, s, a) else None
  }

  lemma StepKeepsTracked(cfg: Config, s: State, a: Action)
    requires Tracked(cfg.am, s) && Snapshots(cfg.am, s) && Shared(cfg.am, a) && Step(cfg, s, a).Some?
    ensures Tracked(cfg.am, Step(cfg, s, a).value)
  {
    match a
    case DoStart(g, node, job) => StartKeepsTracked(cfg.am, s, g, node, job);
    case DoLookup(g) => LookUpKeepsTracked(cfg.am, s, g);
    case DoReadSnapshot(g, ok) => GetSnapshotKeepsTracked(cfg.am, s, g, ok);
    case DoReadOps(g, ok) => GetOpsKeepsTracked(cfg.am, s, g, ok);
    case DoInstall(g, newCell) => InstallKeepsTracked(cfg.am, s, g, newCell);
    case DoAcquire(g) => AcquireKeepsTracked(cfg.am, s, g);
    case DoApply(g, r) => ApplyKeepsTracked(cfg.am, s, g, r);
    case DoAppend(g, ok) => if ok { AppendKeepsTracked(cfg.am, s, g); } else { RefusedKeepsTracked(cfg.am, s, g); }
    case DoEmit(g) => EmitKeepsTracked(cfg.am, s, g);
    case DoSave(g, ok) => SaveKeepsTracked(cfg, s, g, ok);
    case DoPublish(g) => PublishKeepsTracked(cfg.am, s, g);
    case DoReturn(g) => ReturnKeepsTracked(cfg.am, s, g);
    case DoLatest(g) => GetLatestKeepsTracked(cfg.am, s, g);
    case DoSaveManual(g, ok) => SaveManualKeepsTracked(cfg.am, s, g, ok);
    case DoExport(g) => ExportKeepsTracked(cfg.am, s, g);
    case DoCrash(node) => CrashKeepsTracked(cfg.am, s, node);
  }

  // ----- steps that save ------------------------------------------------------------------------------------------

  /** The docState a step saves, and the number it saves it under: a periodic save that is due, or one by hand. */
  ghost function Saving(cfg: Config, s: State, a: Action): Option<(CellId, nat)> {
    if a.DoSave? && a.ok && a.g in s.procs && s.procs[a.g].pc.Emitted?
      && SnapshotDue(cfg.snapshotEvery, s.procs[a.g].pc.seqNo) then
      Some((s.procs[a.g].pc.cell, s.procs[a.g].pc.seqNo))
    else if a.DoSaveManual? && a.ok && a.g in s.procs && s.procs[a.g].pc.Sized? then
      Some((s.procs[a.g].pc.cell, s.procs[a.g].pc.latest))
    else None
  }

  /** Every entry up to n that other nodes committed since docState c was loaded has its changes in it. */
  ghost predicate Covered(am: Automerge, s: State, c: CellId, n: nat) {
    c in s.cells && n <= |s.log| && HasForeign(am, s.log[..n], s.cells[c].loaded, s.cells[c].own, s.cells[c].doc)
  }

  lemma SavingStores(cfg: Config, s: State, a: Action, c: CellId, n: nat)
    requires NodesStep(cfg)(s, a).Some? && Saving(cfg, s, a) == Some((c, n))
    ensures c in s.cells && NodesStep(cfg)(s, a).value.snaps == s.snaps[n := cfg.am.save(s.cells[c].doc)]
    ensures NodesStep(cfg)(s, a).value.log == s.log && NodesStep(cfg)(s, a).value.refused == s.refused
  {
  }

  /** What a saving step finds: nothing in the docState is numbered above n, and nothing is unlogged. */
  lemma SavedCell(cfg: Config, s: State, a: Action, c: CellId, n: nat)
    requires Tracked(cfg.am, s) && NodesStep(cfg)(s, a).Some? && Saving(cfg, s, a) == Some((c, n))
    ensures c in s.cells && n <= |s.log| && UpTo(s.cells[c], n)
    ensures Adds(cfg.am, s, NodesStep(cfg)(s, a).value, n, s.cells[c].loaded, s.cells[c].own, s.cells[c].doc)
  {
    HeldCell(cfg.am, s, a.g);
    SavingStores(cfg, s, a, c, n);
    KnownPrefix(cfg.am, s.log, s.cells[c].loaded, s.cells[c].own, n);
  }

  /** A snapshot of a document that holds the known entries, and beyond them only refused payloads, is added. */
  ghost predicate Adds(am: Automerge, s: State, s': State, n: nat, loaded: nat, own: set<nat>, d: Doc) {
    && n <= |s.log| && s'.log == s.log && s'.refused == s.refused && s'.snaps == s.snaps[n := am.save(d)]
    && Known(am, s.log[..n], loaded, own) <= d <= Known(am, s.log[..n], loaded, own) + s.refused
  }

  lemma AddedIsWholeExactlyWhen(am: Automerge, s: State, s': State, n: nat, loaded: nat, own: set<nat>, d: Doc)
    requires am.Laws() && Snapshots(am, s) && Adds(am, s, s', n, loaded, own, d)
    ensures Snapshots(am, s') <==> HasForeign(am, s.log[..n], loaded, own, d)
  {
    KnownInFold(am, s.log[..n], loaded, own);
    WholeExactlyWhen(am, s.log[..n], loaded, own, d);
    assert n in s'.snaps && s'.snaps[n] == am.save(d);
    forall m | m in s.snaps && m != n ensures StandsFor(am, s', s'.snaps[m], m) {
      StandsForKept(am, s, s', s.snaps[m], m);
    }
  }

  lemma AddedLoadsExactlyWhen(am: Automerge, s: State, s': State, n: nat, loaded: nat, own: set<nat>, d: Doc)
    requires am.Laws() && AllDecode(am, s.log) && Adds(am, s, s', n, loaded, own, d)
    requires forall m :: m in s.snaps ==> m <= n
    ensures Loaded(am, s').Some?
    ensures Fold(am, s.log) <= Loaded(am, s').value
            <==> HasForeign(am, s.log[..n], loaded, own, d + Fold(am, s.log[n..]))
  {
    assert n in s'.snaps;
    assert Highest(s'.snaps) == n;
    FoldSplit(am, s.log, n);
    assert Since(s.log, n) == s.log[n..];
    WholeExactlyWhen(am, s.log[..n], loaded, own, d + Fold(am, s.log[n..]));
  }

  /** A snapshot added below a whole one is never loaded. */
  lemma AddedBelow(am: Automerge, s: State, s': State, n: nat, loaded: nat, own: set<nat>, d: Doc, m: nat)
    requires Snapshots(am, s) && AllDecode(am, s.log) && Adds(am, s, s', n, loaded, own, d)
    requires m in s.snaps && m > n
    ensures Loaded(am, s').Some? && Fold(am, s.log) <= Loaded(am, s').value
  {
    assert m in s'.snaps;
    var top := Highest(s'.snaps);
    assert top in s.snaps && s'.snaps[top] == s.snaps[top];
    StandsForKept(am, s, s', s.snaps[top], top);
    StandsForWhole(am, s', s'.snaps[top], top);
  }

  /** The new snapshot stands for the first n entries if and only if the docState covers them. */
  lemma SaveIsWholeExactlyWhen(cfg: Config, s: State, a: Action, s': State, c: CellId, n: nat)
    requires cfg.am.Laws() && Tracked(cfg.am, s) && Snapshots(cfg.am, s)
    requires NodesStep(cfg)(s, a) == Some(s') && Saving(cfg, s, a) == Some((c, n))
    ensures Snapshots(cfg.am, s') <==> Covered(cfg.am, s, c, n)
  {
    SavedCell(cfg, s, a, c, n);
    AddedIsWholeExactlyWhen(cfg.am, s, s', n, s.cells[c].loaded, s.cells[c].own, s.cells[c].doc);
  }

  /** The store's snapshots are the same; log and refused payloads only grow. */
  ghost predicate SavesNothing(s: State, s': State) {
    s'.snaps == s.snaps && s.log <= s'.log && s.refused <= s'.refused
  }

  lemma LoadingSavesNothing(cfg: Config, s: State, a: Action)
    requires Step(cfg, s, a).Some?
    requires a.DoStart? || a.DoLookup? || a.DoReadSnapshot? || a.DoReadOps? || a.DoInstall? || a.DoAcquire?
             || a.DoApply? || a.DoAppend?
    ensures SavesNothing(s, Step(cfg, s, a).value)
  {
  }

  lemma OthersSaveNothing(cfg: Config, s: State, a: Action)
    requires NodesStep(cfg)(s, a).Some? && Saving(cfg, s, a).None?
    ensures SavesNothing(s, NodesStep(cfg)(s, a).value)
  {
    if a.DoStart? || a.DoLookup? || a.DoReadSnapshot? || a.DoReadOps? || a.DoInstall? || a.DoAcquire? || a.DoApply?
      || a.DoAppend? {
      LoadingSavesNothing(cfg, s, a);
    }
  }

  lemma StepKeepsSnapshots(cfg: Config, s: State, a: Action, s': State)
    requires cfg.am.Laws() && Tracked(cfg.am, s) && Snapshots(cfg.am, s) && NodesStep(cfg)(s, a) == Some(s')
    ensures Snapshots(cfg.am, s')
            <==> (Saving(cfg, s, a).Some? ==> Covered(cfg.am, s, Saving(cfg, s, a).value.0, Saving(cfg, s, a).value.1))
  {
    if Saving(cfg, s, a).Some? {
      SaveIsWholeExactlyWhen(cfg, s, a, s', Saving(cfg, s, a).value.0, Saving(cfg, s, a).value.1);
    } else {
      OthersSaveNothing(cfg, s, a);
      forall m | m in s'.snaps ensures StandsFor(cfg.am, s', s'.snaps[m], m) {
        StandsForKept(cfg.am, s, s', s.snaps[m], m);
      }
    }
  }

  // ----- what every run guarantees -------------------------------------------------------------------------------

  /** The runs in which every snapshot saved covers the entries it is numbered for. */
  ghost function CoveredStep(cfg: Config): (State, Action) -> Option<State> {
    (s, a) =>
      var saving := Saving(cfg, s, a);
      if saving.Some? && !Covered(cfg.am, s, saving.value.0, saving.value.1) then None else NodesStep(cfg)(s, a)
  }

  lemma SharedSteps(cfg: Config, s: State, a: Action)
    requires CoveredStep(cfg)(s, a).Some?
    ensures Shared(cfg.am, a) && Step(cfg, s, a) == CoveredStep(cfg)(s, a) == NodesStep(cfg)(s, a)
  {
    assert CoveredStep(cfg)(s, a) == NodesStep(cfg)(s, a);
  }

  lemma ReachableTracked(cfg: Config, acts: seq<Action>)
    requires cfg.am.Laws()
    ensures var end := Exec(CoveredStep(cfg), INIT, acts);
            end.Some? ==> Tracked(cfg.am, end.value) && Snapshots(cfg.am, end.value)
  {
    forall m: State, a: Action | Tracked(cfg.am, m) && Snapshots(cfg.am, m) && CoveredStep(cfg)(m, a).Some?
      ensures Tracked(cfg.am, CoveredStep(cfg)(m, a).value) && Snapshots(cfg.am, CoveredStep(cfg)(m, a).value)
    {
      SharedSteps(cfg, m, a);
      StepKeepsTracked(cfg, m, a);
      StepKeepsSnapshots(cfg, m, a, NodesStep(cfg)(m, a).value);
    }
    Invariance(CoveredStep(cfg), (s: State) => Tracked(cfg.am, s) && Snapshots(cfg.am, s), INIT, acts);
  }

  /** What a node's cached document is, while no snapshot lacks an entry: the entries it was loaded from and those
      appended through it, and beyond that only refused payloads and the one not yet appended. */
  lemma CacheKnowsItsOwn(cfg: Config, acts: seq<Action>, s: State, node: NodeId)
    requires cfg.am.Laws() && Exec(CoveredStep(cfg), INIT, acts) == Some(s) && node in s.entry
    ensures s.entry[node] in s.cells
    ensures var c, cell := s.entry[node], s.cells[s.entry[node]];
            && Known(cfg.am, s.log, cell.loaded, cell.own) <= cell.doc
            && cell.doc
               <= Known(cfg.am, s.log, cell.loaded, cell.own) + s.refused + Merging(cfg.am, s.procs, c, cell.owner)
    ensures Loaded(cfg.am, s).Some? && Fold(cfg.am, s.log) <= Loaded(cfg.am, s).value <= Fold(cfg.am, s.log) + s.refused
  {
    ReachableTracked(cfg, acts);
    LoadedWhole(cfg.am, s);
  }

  /** Over every run of any number of nodes: no snapshot ever lacks an entry it is numbered for if and only if every
      save, periodic or by hand, was of a docState that covered the entries other nodes had committed since its load. */
  lemma {:induction false} NothingLacksExactlyWhen(cfg: Config, acts: seq<Action>, s: State)
    requires cfg.am.Laws() && Exec(NodesStep(cfg), INIT, acts) == Some(s)
    ensures Throughout(NodesStep(cfg), (m: State) => Snapshots(cfg.am, m), INIT, acts)
            <==> Exec(CoveredStep(cfg), INIT, acts) == Some(s)
    ensures Exec(CoveredStep(cfg), INIT, acts).Some? ==> Exec(CoveredStep(cfg), INIT, acts) == Some(s)
    decreases |acts|
  {
    if acts != [] {
      var before, a := acts[..|acts| - 1], acts[|acts| - 1];
      var m := Exec(NodesStep(cfg), INIT, before).value;
      assert acts == before + [a];
      NothingLacksExactlyWhen(cfg, before, m);
      CoveredOneMore(cfg, before, a, m, s);
    }
  }

  lemma CoveredOneMore(cfg: Config, before: seq<Action>, a: Action, m: State, s: State)
    requires cfg.am.Laws() && Exec(NodesStep(cfg), INIT, before) == Some(m) && NodesStep(cfg)(m, a) == Some(s)
    requires Exec(CoveredStep(cfg), INIT, before).Some? ==> Exec(CoveredStep(cfg), INIT, before) == Some(m)
    ensures Exec(CoveredStep(cfg), INIT, before + [a]) == Some(s)
            <==> Exec(CoveredStep(cfg), INIT, before) == Some(m) && Snapshots(cfg.am, s)
    ensures Exec(CoveredStep(cfg), INIT, before + [a]).Some? ==> Exec(CoveredStep(cfg), INIT, before + [a]) == Some(s)
  {
    assert (before + [a])[..|before|] == before;
    if Exec(CoveredStep(cfg), INIT, before) == Some(m) {
      ReachableTracked(cfg, before);
      StepKeepsSnapshots(cfg, m, a, s);
    }
  }

  /** What the first save that does not cover does to loading. With a higher snapshot in the store it does no harm;
      otherwise the store loads the whole log if and only if every foreign entry up to n has its changes in the saved
      document or in the entries after n. */
  lemma SavedStoreLoadsTheLogExactlyWhen(cfg: Config, acts: seq<Action>, s: State, a: Action, s': State, c: CellId,
                                         n: nat)
    requires cfg.am.Laws() && Exec(CoveredStep(cfg), INIT, acts) == Some(s)
    requires NodesStep(cfg)(s, a) == Some(s') && Saving(cfg, s, a) == Some((c, n))
    ensures c in s.cells && n <= |s.log| && s'.log == s.log && Loaded(cfg.am, s').Some?
    ensures (exists m :: m in s.snaps && m > n) ==> Fold(cfg.am, s.log) <= Loaded(cfg.am, s').value
    ensures (forall m :: m in s.snaps ==> m <= n) ==>
              (Fold(cfg.am, s.log) <= Loaded(cfg.am, s').value
               <==> HasForeign(cfg.am, s.log[..n], s.cells[c].loaded, s.cells[c].own,
                               s.cells[c].doc + Fold(cfg.am, s.log[n..])))
  {
    ReachableTracked(cfg, acts);
    SavedCell(cfg, s, a, c, n);
    var cell := s.cells[c];
    if m :| m in s.snaps && m > n {
      AddedBelow(cfg.am, s, s', n, cell.loaded, cell.own, cell.doc, m);
    } else {
      AddedLoadsExactlyWhen(cfg.am, s, s', n, cell.loaded, cell.own, cell.doc);
    }
  }

  /** Without refused payloads the condition can be read off the log: which entries the docState was loaded from, which
      it appended, and what the others carry. */
  lemma CoveredReadsOffTheLog(cfg: Config, acts: seq<Action>, s: State, a: Action, c: CellId, n: nat)
    requires cfg.am.Laws() && Exec(CoveredStep(cfg), INIT, acts) == Some(s) && s.refused == {}
    requires NodesStep(cfg)(s, a).Some? && Saving(cfg, s, a) == Some((c, n))
    ensures c in s.cells && n <= |s.log|
    ensures var loaded, own := s.cells[c].loaded, s.cells[c].own;
            Covered(cfg.am, s, c, n)
            <==> HasForeign(cfg.am, s.log[..n], loaded, own, Known(cfg.am, s.log[..n], loaded, own))
  {
    ReachableTracked(cfg, acts);
    SavedCell(cfg, s, a, c, n);
  }
}
