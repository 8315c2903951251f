/** The engine as the object the server calls: a store, a map of cached documents and the two listeners. One call runs
    alone here, over any number of documents; how calls interleave is the protocol's business, and every submit,
    snapshot and export is shown to be one of the protocol's runs. */
module EngineServer {
  import opened Core
  import opened Crdt
  import opened EngineProtocol
  import opened Replay
  import SqlStore
  import Transactions

  // ----- a call as a function of one document ---------------------------------------------------------------------

  /** What a call can see of one document. */
  datatype View = View(row: bool, log: seq<Op>, snaps: map<nat, Bytes>, cached: Option<Doc>)

  /** Which of the store calls fail. */
  datatype Faults = Faults(getSnapshot: bool, getOps: bool, append: SqlStore.Fault, latest: bool, save: bool)

  ghost function Opened(am: Automerge, v: View, f: Faults): Option<Doc> {
    if v.cached.Some? then v.cached
    else if f.getSnapshot || f.getOps then None
    else Rehydrated(am, SnapState(v.snaps), Since(v.log, SnapSeq(v.snaps)))
  }

  /** The view after committing a change that is already merged into the cached document, and the answer. */
  ghost function Committed(cfg: Config, shape: Transactions.Shape, v: View, session: SessionId, payload: Bytes,
                           f: Faults)
    : (View, Option<nat>)
    requires v.cached.Some?
  {
    if SqlStore.Fails(shape, v.row, f.append) then (v, None)
    else
      var n := |v.log| + 1;
      (View(true,
            v.log + [Op(n, session, payload)],
            if SnapshotDue(cfg.snapshotEvery, n) && !f.save then v.snaps[n := cfg.am.save(v.cached.value)] else v.snaps,
            v.cached),
       Some(n))
  }

  /** The document a submit leaves in the cache, if it gets as far as merging. */
  ghost function Merged(cfg: Config, v: View, payload: Bytes, r: Resolution, f: Faults): Option<Doc> {
    if payload == [] || Opened(cfg.am, v, f).None? then None
    else ApplyChange(cfg.am, Opened(cfg.am, v, f).value, payload, r)
  }

  /** The view after a submit and its answer. */
  ghost function Submitted(cfg: Config, shape: Transactions.Shape, v: View, session: SessionId, payload: Bytes,
                           r: Resolution, f: Faults): (View, Option<nat>) {
    if payload == [] || Opened(cfg.am, v, f).None? then (v, None)
    else if Merged(cfg, v, payload, r, f).None? then (v.(cached := Opened(cfg.am, v, f)), None)
    else Committed(cfg, shape, v.(cached := Merged(cfg, v, payload, r, f)), session, payload, f)
  }

  ghost function ManuallySaved(am: Automerge, v: View, f: Faults): (View, Option<nat>) {
    match Opened(am, v, f)
    case None => (v, None)
    case Some(d) =>
      if f.latest || f.save || !v.row then (v.(cached := Some(d)), None)
      else (v.(cached := Some(d), snaps := v.snaps[|v.log| := am.save(d)]), Some(|v.log|))
  }

  // ----- what the functions mean ----------------------------------------------------------------------------------

  const ALL_SUCCEED := Faults(false, false, SqlStore.NoFault, false, false)

  /** The document is cached, or its newest snapshot loads and every later payload merges. */
  ghost predicate Openable(am: Automerge, v: View) {
    v.cached.Some? || Rehydrated(am, SnapState(v.snaps), Since(v.log, SnapSeq(v.snaps))).Some?
  }

  /** A submit adds its own payload under the next number, or leaves log and snapshots alone. */
  ghost predicate Extends(cfg: Config, v: View, v': View, session: SessionId, payload: Bytes, ack: Option<nat>,
                          f: Faults) {
    if ack.None? then v'.row == v.row && v'.log == v.log && v'.snaps == v.snaps
    else
      var n := |v.log| + 1;
      && ack == Some(n) && v'.row && v'.log == v.log + [Op(n, session, payload)] && v'.cached.Some?
      && (if cfg.snapshotEvery > 0 && n % cfg.snapshotEvery == 0 && !f.save
          then v'.snaps == v.snaps[n := cfg.am.save(v'.cached.value)]
          else v'.snaps == v.snaps)
  }

  lemma CommittedExtends(cfg: Config, shape: Transactions.Shape, v: View, session: SessionId, payload: Bytes, f: Faults)
    requires v.cached.Some?
    ensures var (v', ack) := Committed(cfg, shape, v, session, payload, f);
            Extends(cfg, v, v', session, payload, ack, f)
  {
  }

  lemma SubmittedExtends(cfg: Config, shape: Transactions.Shape, v: View, session: SessionId, payload: Bytes,
                         r: Resolution, f: Faults)
    ensures var (v', ack) := Submitted(cfg, shape, v, session, payload, r, f);
            Extends(cfg, v, v', session, payload, ack, f)
  {
  }

  /** With no fault, a submit succeeds exactly when there is a payload, the document opens and the payload merges. */
  lemma SubmittedSucceeds(cfg: Config, shape: Transactions.Shape, v: View, session: SessionId, payload: Bytes,
                          r: Resolution)
    ensures Submitted(cfg, shape, v, session, payload, r, ALL_SUCCEED).1.Some?
            <==> payload != [] && Openable(cfg.am, v) && Decodes(cfg.am, payload)
  {
  }

  // ----- the object -----------------------------------------------------------------------------------------------

  datatype Event = Created(doc: DocId) | Updated(doc: DocId, seqNo: nat, session: SessionId) | SyncError(doc: DocId)

  datatype Announcement = Announcement(doc: DocId, op: Op)

  /** The events of an answer: a document is created with its first entry. */
  function Heard(d: DocId, session: SessionId, ack: Option<nat>): seq<Event> {
    if ack.None? then []
    else if ack.value == 1 then [Created(d), Updated(d, 1, session)] else [Updated(d, ack.value, session)]
  }

  function Told(d: DocId, session: SessionId, payload: Bytes, ack: Option<nat>): seq<Announcement> {
    if ack.None? then [] else [Announcement(d, Op(ack.value, session, payload))]
  }

  /** The ops that were announced. */
  function OpsOf(told: seq<Announcement>): seq<Op> {
    seq(|told|, i requires 0 <= i < |told| => told[i].op)
  }

  /** Among the events of document d, who announces what. */
  ghost predicate Reports(d: DocId, session: SessionId, ack: Option<nat>, news: seq<Event>) {
    && (Created(d) in news <==> ack == Some(1))
    && (forall e :: e in news && e.Updated? ==> ack.Some? && e == Updated(d, ack.value, session))
    && (ack.Some? ==> multiset(news)[Updated(d, ack.value, session)] == 1)
    && (forall e :: e in news && e.Created? ==> e == Created(d))
  }

  lemma HeardReports(d: DocId, session: SessionId, ack: Option<nat>, errors: seq<Event>)
    requires forall e :: e in errors ==> e.SyncError?
    ensures Reports(d, session, ack, errors + Heard(d, session, ack))
  {
    var news := errors + Heard(d, session, ack);
    assert forall e :: e in news <==> e in errors || e in Heard(d, session, ack);
    assert multiset(news) == multiset(errors) + multiset(Heard(d, session, ack));
    if ack.Some? {
      assert Updated(d, ack.value, session) !in errors;
      if ack.value == 1 {
        assert Heard(d, session, ack) == [Created(d), Updated(d, 1, session)];
      } else {
        assert Heard(d, session, ack) == [Updated(d, ack.value, session)];
      }
    }
  }

  /** Nothing is announced without an ack; with one, exactly the log's last entry is. */
  ghost predicate Announces(d: DocId, before: seq<Announcement>, after: seq<Announcement>, log: seq<Op>,
                            ack: Option<nat>) {
    if ack.None? then after == before
    else log != [] && after == before + [Announcement(d, log[|log| - 1])]
  }

  ghost predicate News(d: DocId, session: SessionId, ack: Option<nat>, before: seq<Event>, after: seq<Event>) {
    before <= after && Reports(d, session, ack, after[|before|..])
  }

  lemma ToldAnnounces(cfg: Config, d: DocId, v: View, v': View, session: SessionId, payload: Bytes, ack: Option<nat>,
                      f: Faults, before: seq<Announcement>)
    requires Extends(cfg, v, v', session, payload, ack, f)
    ensures Announces(d, before, before + Told(d, session, payload, ack), v'.log, ack)
  {
    assert before + [] == before;
  }

  lemma HeardIsNews(d: DocId, session: SessionId, ack: Option<nat>, errors: seq<Event>, before: seq<Event>)
    requires forall e :: e in errors ==> e.SyncError?
    ensures News(d, session, ack, before, before + errors + Heard(d, session, ack))
  {
    var after := before + errors + Heard(d, session, ack);
    HeardReports(d, session, ack, errors);
    assert after[|before|..] == errors + Heard(d, session, ack);
  }

  class DocState {
    var doc: Doc

    constructor (doc: Doc)
      ensures this.doc == doc
    {
      this.doc := doc;
    }
  }

  class Engine {
    const cfg: Config
    const replayBatch: nat
    const store: SqlStore.Database
    var docs: map<DocId, DocState>
    var events: seq<Event>
    var sent: seq<Announcement>

    ghost predicate Valid()
      reads this`docs, store
    {
      && store.Valid()
      && replayBatch > 0
      && forall d, e :: d in docs && e in docs && d != e ==> docs[d] != docs[e]
    }

    ghost function ViewOf(d: DocId): View
      reads this`docs, store, docs.Values
    {
      var contents := store.Contents();
      View(d in contents, Transactions.LogOf(contents, d), Transactions.SnapsOf(contents, d),
           if d in docs then Some(docs[d].doc) else None)
    }

    constructor (cfg: Config, replayBatchSize: int, store: SqlStore.Database)
      requires store.Valid()
      ensures Valid() && this.cfg == cfg && this.store == store && replayBatch == BatchSize(replayBatchSize)
      ensures docs == map[] && events == [] && sent == []
    {
      this.cfg, this.store, replayBatch := cfg, store, BatchSize(replayBatchSize);
      docs, events, sent := map[], [], [];
    }

    /** Rebuilds a document from its newest snapshot and the operations after it. */
    method LoadDoc(d: DocId, f: Faults) returns (r: Option<Doc>)
      requires Valid()
      ensures r == Opened(cfg.am, ViewOf(d).(cached := None), f)
      ensures r == if f.getSnapshot || f.getOps then None
                   else Rehydrated(cfg.am, SnapState(ViewOf(d).snaps), Since(ViewOf(d).log, SnapSeq(ViewOf(d).snaps)))
    {
      if f.getSnapshot { return None; }
      var snapshot := store.GetSnapshot(d);
      var (base, atSeq) := if snapshot.Some? then snapshot.value else ([], 0);
      if f.getOps { return None; }
      var ops := store.GetOpsSince(d, atSeq);
      r := Rehydrate(cfg.am, base, ops);
    }

    /** The cached document, loaded on first access. */
    method State(d: DocId, f: Faults) returns (r: Option<DocState>)
      requires Valid()
      modifies this`docs
      ensures Valid() && (r.None? <==> old(Opened(cfg.am, ViewOf(d), f)).None?)
      ensures r.None? ==> docs == old(docs)
      ensures r.Some? ==> d in docs && docs == old(docs)[d := r.value] && (d in old(docs) ==> docs == old(docs))
      ensures r.Some? ==> Some(r.value.doc) == old(Opened(cfg.am, ViewOf(d), f))
      ensures forall e :: e in docs ==> e in old(docs) || fresh(docs[e])
      ensures ViewOf(d) == old(ViewOf(d)).(cached := old(Opened(cfg.am, ViewOf(d), f)))
      ensures forall e :: e != d ==> ViewOf(e) == old(ViewOf(e))
    {
      if d in docs { return Some(docs[d]); }
      var doc := LoadDoc(d, f);
      if doc.None? { return None; }
      var st := new DocState(doc.value);
      docs := docs[d := st];
      return Some(st);
    }

    /** Merging the change; only a loadable reply of the resolver replaces the document. */
    method ApplyTo(d: DocId, st: DocState, payload: Bytes, r: Resolution) returns (ok: bool)
      requires Valid() && d in docs && docs[d] == st
      modifies st, this`events
      ensures Valid() && ViewOf(d) == old(ViewOf(d)).(cached := Some(st.doc))
      ensures forall e :: e != d ==> ViewOf(e) == old(ViewOf(e))
      ensures ok <==> ApplyChange(cfg.am, old(st.doc), payload, r).Some?
      ensures st.doc == if ok then ApplyChange(cfg.am, old(st.doc), payload, r).value else old(st.doc)
      ensures ok <==> Decodes(cfg.am, payload)
      ensures ok ==> st.doc == if r.Replied? && cfg.am.load(r.state).Some? then cfg.am.load(r.state).value
                               else old(st.doc) + Changes(cfg.am, payload)
      ensures events == old(events) + if ok && r.Errored? then [SyncError(d)] else []
    {
      var merged := Merge(cfg.am, st.doc, payload);
      if merged.None? { return false; }
      st.doc := merged.value;
      if r.Errored? { events := events + [SyncError(d)]; }
      if r.Replied? {
        var resolved := cfg.am.load(r.state);
        if resolved.Some? { st.doc := resolved.value; }
      }
      return true;
    }

    method Append(d: DocId, session: SessionId, payload: Bytes, f: Faults) returns (ack: Option<nat>)
      requires Valid()
      modifies store
      ensures Valid()
      ensures ack.None? <==> SqlStore.Fails(store.shape, old(ViewOf(d)).row, f.append)
      ensures ack.None? ==> ViewOf(d) == old(ViewOf(d))
      ensures ack.Some? ==> ack.value == |old(ViewOf(d)).log| + 1
      ensures ack.Some? ==>
                ViewOf(d) == old(ViewOf(d)).(row := true, log := old(ViewOf(d)).log + [Op(ack.value, session, payload)])
      ensures forall e :: e != d ==> ViewOf(e) == old(ViewOf(e))
    {
      ack := store.AppendOp(d, payload, session, f.append);
    }

    method Save(d: DocId, state: Bytes, n: nat, f: Faults) returns (ok: bool)
      requires Valid()
      modifies store
      ensures Valid()
      ensures ok <==> old(ViewOf(d)).row && !f.save
      ensures ViewOf(d) == if ok then old(ViewOf(d)).(snaps := old(ViewOf(d)).snaps[n := state]) else old(ViewOf(d))
      ensures forall e :: e != d ==> ViewOf(e) == old(ViewOf(e))
    {
      ok := store.SaveSnapshot(d, state, n, f.save);
    }

    method EmitCommitted(d: DocId, session: SessionId, n: nat)
      modifies this`events
      ensures events == old(events) + Heard(d, session, Some(n))
    {
      if n == 1 { events := events + [Created(d)]; }
      events := events + [Updated(d, n, session)];
    }

    /** The periodic snapshot; a failed save is only logged. */
    method SaveIfDue(d: DocId, st: DocState, n: nat, f: Faults)
      requires Valid() && d in docs && docs[d] == st && ViewOf(d).row
      modifies store
      ensures Valid()
      ensures ViewOf(d) == if SnapshotDue(cfg.snapshotEvery, n) && !f.save
                           then old(ViewOf(d)).(snaps := old(ViewOf(d)).snaps[n := cfg.am.save(st.doc)])
                             else old(ViewOf(d))
      ensures forall e :: e != d ==> ViewOf(e) == old(ViewOf(e))
    {
      if SnapshotDue(cfg.snapshotEvery, n) {
        var _ := Save(d, cfg.am.save(st.doc), n, f);
      }
    }

    /** Append, events, save and broadcast, in this order. */
    method AppendAndTell(d: DocId, st: DocState, session: SessionId, payload: Bytes, f: Faults)
      returns (ack: Option<nat>)
      requires Valid() && d in docs && docs[d] == st
      modifies this`events, this`sent, store
      ensures Valid()
      ensures (ViewOf(d), ack) == old(Committed(cfg, store.shape, ViewOf(d), session, payload, f))
      ensures forall e :: e != d ==> ViewOf(e) == old(ViewOf(e))
      ensures sent == old(sent) + Told(d, session, payload, ack)
      ensures events == old(events) + Heard(d, session, ack)
    {
      ack := Append(d, session, payload, f);
      if ack.None? { return None; }
      EmitCommitted(d, session, ack.value);
      SaveIfDue(d, st, ack.value, f);
      sent := sent + [Announcement(d, Op(ack.value, session, payload))];
    }

    /** From the append to the broadcast, with the document locked: the payload is the next entry and exactly that is
        announced, or nothing is committed and nothing announced. */
    method CommitMerged(d: DocId, st: DocState, session: SessionId, payload: Bytes, f: Faults)
      returns (ack: Option<nat>)
      requires Valid() && d in docs && docs[d] == st
      modifies this`events, this`sent, store
      ensures Valid()
      ensures (ViewOf(d), ack) == old(Committed(cfg, store.shape, ViewOf(d), session, payload, f))
      ensures forall e :: e != d ==> ViewOf(e) == old(ViewOf(e))
      ensures sent == old(sent) + Told(d, session, payload, ack)
      ensures events == old(events) + Heard(d, session, ack)
      ensures Extends(cfg, old(ViewOf(d)), ViewOf(d), session, payload, ack, f)
      ensures Announces(d, old(sent), sent, ViewOf(d).log, ack)
    {
      ghost var v, told := ViewOf(d), sent;
      CommittedExtends(cfg, store.shape, v, session, payload, f);
      ack := AppendAndTell(d, st, session, payload, f);
      ToldAnnounces(cfg, d, v, ViewOf(d), session, payload, ack, f, told);
    }

    /** The part of a submit that holds the document's lock. */
    method MergeAndCommit(d: DocId, st: DocState, session: SessionId, payload: Bytes, r: Resolution, f: Faults)
      returns (ack: Option<nat>)
      requires Valid() && payload != [] && d in docs && docs[d] == st
      modifies st, this`events, this`sent, store
      ensures Valid()
      ensures (ViewOf(d), ack) == old(Submitted(cfg, store.shape, ViewOf(d), session, payload, r, f))
      ensures forall e :: e != d ==> ViewOf(e) == old(ViewOf(e))
      ensures sent == old(sent) + Told(d, session, payload, ack)
      ensures events == old(events) + old(Errors(d, ViewOf(d), payload, r, f)) + Heard(d, session, ack)
    {
      var applied := ApplyTo(d, st, payload, r);
      if !applied { return None; }
      ack := CommitMerged(d, st, session, payload, f);
    }

    /** The events before the answer's: an erring resolver is reported once the payload has merged. */
    ghost function Errors(d: DocId, v: View, payload: Bytes, r: Resolution, f: Faults): seq<Event> {
      if Merged(cfg, v, payload, r, f).Some? && r.Errored? then [SyncError(d)] else []
    }

    /** Opens the document, then merges and commits under its lock. */
    method OpenAndCommit(d: DocId, session: SessionId, payload: Bytes, r: Resolution, f: Faults)
      returns (ack: Option<nat>)
      requires Valid() && payload != []
      modifies this`docs, this`events, this`sent, store, docs.Values
      ensures Valid()
      ensures (ViewOf(d), ack) == old(Submitted(cfg, store.shape, ViewOf(d), session, payload, r, f))
      ensures forall e :: e != d ==> ViewOf(e) == old(ViewOf(e))
      ensures sent == old(sent) + Told(d, session, payload, ack)
      ensures events == old(events) + old(Errors(d, ViewOf(d), payload, r, f)) + Heard(d, session, ack)
    {
      var st := State(d, f);
      if st.None? { return None; }
      ack := MergeAndCommit(d, st.value, session, payload, r, f);
    }

    /** Applies, appends, saves when due and broadcasts: document d changes as `Submitted` says, which is to grow by the
        payload under the next number or not at all; no other document changes; exactly what was committed is announced
        and reported; and without a fault a payload that merges into a document that opens is acked. */
    method Submit(d: DocId, session: SessionId, payload: Bytes, r: Resolution, f: Faults) returns (ack: Option<nat>)
      requires Valid()
      modifies this`docs, this`events, this`sent, store, docs.Values
      ensures Valid()
      ensures d == "" ==> ack.None? && ViewOf(d) == old(ViewOf(d)) && events == old(events)
      ensures d != "" ==> (ViewOf(d), ack) == old(Submitted(cfg, store.shape, ViewOf(d), session, payload, r, f))
      ensures forall e :: e != d ==> ViewOf(e) == old(ViewOf(e))
      ensures Extends(cfg, old(ViewOf(d)), ViewOf(d), session, payload, ack, f)
      ensures Announces(d, old(sent), sent, ViewOf(d).log, ack)
      ensures News(d, session, ack, old(events), events)
      ensures f == ALL_SUCCEED && d != "" ==>
                (ack.Some? <==> payload != [] && old(Openable(cfg.am, ViewOf(d))) && Decodes(cfg.am, payload))
    {
      ghost var v, told, heard := ViewOf(d), sent, events;
      SubmittedExtends(cfg, store.shape, v, session, payload, r, f);
      SubmittedSucceeds(cfg, store.shape, v, session, payload, r);
      if d == "" || |payload| == 0 {
        HeardIsNews(d, session, None, [], heard);
        assert heard + [] + Heard(d, session, None) == heard;
        return None;
      }
      ack := OpenAndCommit(d, session, payload, r, f);
      ToldAnnounces(cfg, d, v, ViewOf(d), session, payload, ack, f, told);
      HeardIsNews(d, session, ack, Errors(d, v, payload, r, f), heard);
    }

    /** Streams what a subscriber at cursor `after` is missing: the whole partition of the log's tail, or the batches
        before the one that `accepts` refuses; nothing when the log cannot be read. */
    method Replay(d: DocId, after: int, fault: bool, accepts: nat -> bool) returns (sent: seq<Batch>, ok: bool)
      requires Valid()
      ensures var due := Batches(Since(ViewOf(d).log, after), replayBatch);
              && sent <= due
              && (ok <==> sent == due)
              && (ok ==> Payloads(sent) == Since(ViewOf(d).log, after))
              && (fault ==> sent == [] && !ok)
              && (!ok && !fault ==> !accepts(|sent|))
    {
      if fault {
        BatchesPartition(Since(ViewOf(d).log, after), replayBatch);
        return [], false;
      }
      var ops := store.GetOpsSince(d, after);
      BatchesPartition(ops, replayBatch);
      sent, ok := Stream(ops, replayBatch, accepts);
    }

    method Snapshot(d: DocId, f: Faults) returns (r: Option<nat>)
      requires Valid()
      modifies this`docs, store
      ensures Valid()
      ensures (ViewOf(d), r) == old(ManuallySaved(cfg.am, ViewOf(d), f))
      ensures forall e :: e != d ==> ViewOf(e) == old(ViewOf(e))
      ensures f == ALL_SUCCEED ==> (r.Some? <==> old(ViewOf(d)).row && old(Openable(cfg.am, ViewOf(d))))
      ensures r.Some? ==> r.value == |ViewOf(d).log| && ViewOf(d).cached.Some?
                          && ViewOf(d).snaps == old(ViewOf(d)).snaps[r.value := cfg.am.save(ViewOf(d).cached.value)]
      ensures r.None? ==> ViewOf(d).snaps == old(ViewOf(d)).snaps
      ensures ViewOf(d).row == old(ViewOf(d)).row && ViewOf(d).log == old(ViewOf(d)).log
      ensures old(ViewOf(d)).cached.Some? ==> ViewOf(d).cached == old(ViewOf(d)).cached
    {
      var st := State(d, f);
      if st.None? || f.latest { return None; }
      var n := store.GetLatestSeq(d);
      var ok := Save(d, cfg.am.save(st.value.doc), n, f);
      if !ok { return None; }
      return Some(n);
    }

    method Export(d: DocId, f: Faults) returns (r: Option<Bytes>)
      requires Valid()
      modifies this`docs
      ensures Valid()
      ensures var doc := old(Opened(cfg.am, ViewOf(d), f));
              && r == (if doc.None? then None else Some(cfg.am.save(doc.value)))
              && ViewOf(d) == old(ViewOf(d)).(cached := doc)
      ensures forall e :: e != d ==> ViewOf(e) == old(ViewOf(e))
      ensures f == ALL_SUCCEED ==> (r.Some? <==> old(Openable(cfg.am, ViewOf(d))))
      ensures r.Some? ==> ViewOf(d).cached.Some? && r.value == cfg.am.save(ViewOf(d).cached.value)
    {
      var st := State(d, f);
      if st.None? { return None; }
      return Some(cfg.am.save(st.value.doc));
    }

    method Forget(d: DocId)
      requires Valid()
      modifies this`docs
      ensures Valid()
      ensures ViewOf(d) == old(ViewOf(d)).(cached := None)
      ensures forall e :: e != d ==> ViewOf(e) == old(ViewOf(e))
    {
      docs := docs - {d};
    }

    /** The delete handler: only a deleted row drops the cached document. */
    method DeleteDoc(d: DocId, fault: bool) returns (ok: bool)
      requires Valid()
      modifies this`docs, store
      ensures Valid()
      ensures ok <==> old(ViewOf(d)).row && !fault
      ensures ViewOf(d) == if ok then View(false, [], map[], None) else old(ViewOf(d))
      ensures forall e :: e != d ==> ViewOf(e) == old(ViewOf(e))
    {
      ok := store.DeleteDocument(d, fault);
      if ok { Forget(d); }
    }
  }
}
