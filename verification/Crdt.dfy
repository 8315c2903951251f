/** The CRDT layer: a document is the set of changes it has received, and merging is union.

    The encoding of change sets and snapshots belongs to the Automerge library. It enters as three functions about
    which only two laws are used: a saved document loads back, and a saved document is never the empty string. */
module Crdt {
  import opened Core

  type Change = Bytes
  type Doc = set<Change>

  datatype Automerge = Automerge(decode: Bytes -> Option<set<Change>>,
                                 save: Doc -> Bytes,
                                 load: Bytes -> Option<Doc>)
  {
    ghost predicate Laws() {
      forall d: Doc :: save(d) != [] && load(save(d)) == Some(d)
    }
  }

  /** The changes a payload carries; a payload that does not decode carries none. */
  function Changes(am: Automerge, payload: Bytes): set<Change> {
    match am.decode(payload) case None => {} case Some(cs) => cs
  }

  predicate Decodes(am: Automerge, payload: Bytes) {
    am.decode(payload).Some?
  }

  /** Merging a payload: the union, or a failure that changes nothing. */
  function Merge(am: Automerge, d: Doc, payload: Bytes): Option<Doc> {
    match am.decode(payload) case None => None case Some(cs) => Some(d + cs)
  }

  /** Every change carried by the payloads of a log: what replaying the log from the empty document means. */
  function Fold(am: Automerge, log: seq<Op>): Doc {
    if log == [] then {} else Fold(am, log[..|log| - 1]) + Changes(am, log[|log| - 1].payload)
  }

  predicate AllDecode(am: Automerge, log: seq<Op>) {
    forall i :: 0 <= i < |log| ==> Decodes(am, log[i].payload)
  }

  lemma {:induction false} FoldConcat(am: Automerge, a: seq<Op>, b: seq<Op>)
    ensures Fold(am, a + b) == Fold(am, a) + Fold(am, b)
    decreases |b|
  {
    if b == [] {
      assert a + b == a;
    } else {
      var b' := b[..|b| - 1];
      FoldConcat(am, a, b');
      assert (a + b)[..|a + b| - 1] == a + b';
    }
  }

  lemma FoldSnoc(am: Automerge, log: seq<Op>, op: Op)
    ensures Fold(am, log + [op]) == Fold(am, log) + Changes(am, op.payload)
  {
    assert (log + [op])[..|log|] == log;
  }

  lemma FoldSplit(am: Automerge, log: seq<Op>, n: nat)
    requires n <= |log|
    ensures Fold(am, log) == Fold(am, log[..n]) + Fold(am, log[n..])
  {
    FoldConcat(am, log[..n], log[n..]);
    assert log[..n] + log[n..] == log;
  }

  /** Every entry's changes are in the fold. */
  lemma {:induction false} FoldHolds(am: Automerge, log: seq<Op>, i: nat)
    requires i < |log|
    ensures Changes(am, log[i].payload) <= Fold(am, log)
    decreases |log|
  {
    if i < |log| - 1 {
      FoldHolds(am, log[..|log| - 1], i);
    }
  }

  /** The document a snapshot stands for: an absent or empty snapshot is the empty document. */
  function Base(am: Automerge, snapshot: Bytes): Option<Doc> {
    if snapshot == [] then Some({}) else am.load(snapshot)
  }

  /** Snapshot plus tail, as a value. */
  function Rehydrated(am: Automerge, snapshot: Bytes, tail: seq<Op>): Option<Doc> {
    match Base(am, snapshot)
    case None => None
    case Some(d) => if AllDecode(am, tail) then Some(d + Fold(am, tail)) else None
  }

  /** Rebuilds a document by loading the snapshot and merging the tail one payload at a time; the first payload
      that fails to merge aborts the rebuild. */
  method Rehydrate(am: Automerge, snapshot: Bytes, tail: seq<Op>) returns (r: Option<Doc>)
    ensures r == Rehydrated(am, snapshot, tail)
  {
    var base := if |snapshot| > 0 then am.load(snapshot) else Some({});
    if base.None? { return None; }
    var d := base.value;
    for i := 0 to |tail|
      invariant d == base.value + Fold(am, tail[..i])
      invariant AllDecode(am, tail[..i])
    {
      var merged := Merge(am, d, tail[i].payload);
      if merged.None? { return None; }
      d := merged.value;
      FoldSnoc(am, tail[..i], tail[i]);
      assert tail[..i + 1] == tail[..i] + [tail[i]];
    }
    assert tail[..|tail|] == tail;
    return Some(d);
  }

  /** A snapshot of everything up to entry n, followed by the later entries, is the whole log: applying an entry
      twice adds nothing, and what the snapshot holds beyond the log stays. */
  lemma SnapshotPlusTail(am: Automerge, log: seq<Op>, n: nat, snapshot: Bytes, extra: Doc)
    requires n <= |log| && AllDecode(am, log) && Base(am, snapshot).Some?
    requires Fold(am, log[..n]) <= Base(am, snapshot).value <= Fold(am, log[..n]) + extra
    ensures Rehydrated(am, snapshot, Since(log, n)).Some?
    ensures Fold(am, log) <= Rehydrated(am, snapshot, Since(log, n)).value <= Fold(am, log) + extra
  {
    FoldSplit(am, log, n);
    assert Since(log, n) == log[n..];
  }
}
