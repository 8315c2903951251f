/** Catch-up: streaming the ops a subscriber is missing in numbered batches. */
module Replay {
  import opened Core

  /** One replay message: its ops, its number starting at 1, how many there are, and whether it is the last. */
  datatype Batch = Batch(ops: seq<Op>, number: nat, total: nat, done: bool)

  const DEFAULT_BATCH_SIZE := 500

  function BatchSize(configured: int): (size: nat)
    ensures size > 0 && (configured > 0 ==> size == configured) && (configured <= 0 ==> size == 500)
  {
    if configured <= 0 then DEFAULT_BATCH_SIZE else configured
  }

  // ----- the partition, defined without arithmetic on positions ---------------------------------------------------

  /** Cuts `ops` into pieces of `size`, the last one possibly shorter. Nothing is owed: one empty piece. */
  function Chunks(ops: seq<Op>, size: nat): (cs: seq<seq<Op>>)
    requires size > 0
    ensures |cs| > 0
  {
    if |ops| <= size then [ops] else [ops[..size]] + Chunks(ops[size..], size)
  }

  function Flatten(cs: seq<seq<Op>>): seq<Op> {
    if cs == [] then [] else cs[0] + Flatten(cs[1..])
  }

  /** The messages of a complete replay. */
  function Batches(ops: seq<Op>, size: nat): (bs: seq<Batch>)
    requires size > 0
    ensures |bs| == |Chunks(ops, size)|
  {
    var cs := Chunks(ops, size);
    seq(|cs|, i requires 0 <= i < |cs| => Batch(cs[i], i + 1, |cs|, i == |cs| - 1))
  }

  function Payloads(bs: seq<Batch>): seq<Op> {
    if bs == [] then [] else bs[0].ops + Payloads(bs[1..])
  }

  /** The pieces put together again are the ops; no piece is larger than the size; only an empty log has an empty
      piece. */
  lemma {:induction false} ChunksPartition(ops: seq<Op>, size: nat)
    requires size > 0
    ensures Flatten(Chunks(ops, size)) == ops
    ensures forall i :: 0 <= i < |Chunks(ops, size)| ==> |Chunks(ops, size)[i]| <= size
    ensures ops != [] ==> forall i :: 0 <= i < |Chunks(ops, size)| ==> Chunks(ops, size)[i] != []
    decreases |ops|
  {
    if |ops| <= size {
      assert Flatten([ops]) == ops + Flatten([]);
    } else {
      ChunksPartition(ops[size..], size);
      assert ops[..size] + ops[size..] == ops;
      assert Chunks(ops, size)[1..] == Chunks(ops[size..], size);
    }
  }

  lemma {:induction false} PayloadsAreChunks(bs: seq<Batch>, cs: seq<seq<Op>>)
    requires |bs| == |cs| && forall i :: 0 <= i < |bs| ==> bs[i].ops == cs[i]
    ensures Payloads(bs) == Flatten(cs)
    decreases |bs|
  {
    if bs != [] {
      PayloadsAreChunks(bs[1..], cs[1..]);
    }
  }

  /** A complete replay is an exact partition of what is owed. */
  lemma BatchesPartition(ops: seq<Op>, size: nat)
    requires size > 0
    ensures Payloads(Batches(ops, size)) == ops
    ensures forall i :: 0 <= i < |Batches(ops, size)| ==>
                          && Batches(ops, size)[i].number == i + 1
                          && Batches(ops, size)[i].total == |Batches(ops, size)|
                          && |Batches(ops, size)[i].ops| <= size
                          && (Batches(ops, size)[i].done <==> i == |Batches(ops, size)| - 1)
                          && (Batches(ops, size)[i].ops == [] <==> ops == [])
  {
    ChunksPartition(ops, size);
    PayloadsAreChunks(Batches(ops, size), Chunks(ops, size));
    if ops == [] {
      assert Chunks(ops, size) == [[]];
    }
  }

  // ----- the arithmetic of the streaming loop ---------------------------------------------------------------------

  lemma DivOneMore(x: nat, k: nat)
    requires k > 0
    ensures (x + k) / k == x / k + 1
  {
    var d, r := (x + k) / k - x / k - 1, (x + k) % k - x % k;
    assert d * k == -r;
    assert d >= 1 ==> d * k >= k;
    assert d <= -1 ==> d * k + k <= 0;
  }

  lemma DivSmall(x: nat, k: nat)
    requires 0 < k && k <= x < 2 * k
    ensures x / k == 1
  {
    DivOneMore(x - k, k);
  }

  /** The batch count the loop computes is the number of pieces. */
  lemma {:induction false} CountMatches(ops: seq<Op>, size: nat)
    requires size > 0
    ensures var total := (|ops| + size - 1) / size; |Chunks(ops, size)| == if total == 0 then 1 else total
    decreases |ops|
  {
    if |ops| == 0 {
    } else if |ops| <= size {
      DivSmall(|ops| + size - 1, size);
    } else {
      CountMatches(ops[size..], size);
      DivOneMore(|ops| - 1, size);
    }
  }

  /** Where piece number i starts. */
  function StartOf(i: nat, size: nat): nat {
    if i == 0 then 0 else size + StartOf(i - 1, size)
  }

  lemma {:induction false} StartIsProduct(i: nat, size: nat)
    ensures StartOf(i, size) == i * size
    decreases i
  {
    if i > 0 {
      StartIsProduct(i - 1, size);
      assert (i - 1) * size + size == i * size;
    }
  }

  /** The piece of `ops` that starts at `at`. */
  function Piece(ops: seq<Op>, size: nat, at: nat): seq<Op>
    requires at <= |ops|
  {
    ops[at..if at + size > |ops| then |ops| else at + size]
  }

  lemma PieceOfRest(ops: seq<Op>, size: nat, at: nat)
    requires size + at <= |ops|
    ensures Piece(ops[size..], size, at) == Piece(ops, size, size + at)
  {
  }

  lemma {:induction false} ChunkAt(ops: seq<Op>, size: nat, i: nat)
    requires size > 0 && i < |Chunks(ops, size)|
    ensures StartOf(i, size) <= |ops| && Chunks(ops, size)[i] == Piece(ops, size, StartOf(i, size))
    decreases i
  {
    if i > 0 {
      ChunkAt(ops[size..], size, i - 1);
      PieceOfRest(ops, size, StartOf(i - 1, size));
    }
  }

  /** Streams `ops` in batches. `accepts(i)` is the outcome of handing over the i-th batch. A refused batch ends the
      replay with an error. Every slice taken is in range. */
  method Stream(ops: seq<Op>, size: nat, accepts: nat -> bool) returns (sent: seq<Batch>, ok: bool)
    requires size > 0
    ensures sent <= Batches(ops, size)
    ensures forall i :: 0 <= i < |sent| ==> accepts(i)
    ensures ok <==> sent == Batches(ops, size)
    ensures !ok ==> !accepts(|sent|)
  {
    var total := (|ops| + size - 1) / size;
    if total == 0 { total := 1; }
    CountMatches(ops, size);
    sent := [];
    for batch := 0 to total
      invariant sent == Batches(ops, size)[..batch]
      invariant forall i :: 0 <= i < batch ==> accepts(i)
    {
      ChunkAt(ops, size, batch);
      StartIsProduct(batch, size);
      var start := batch * size;
      var end := start + size;
      if end > |ops| { end := |ops|; }
      var replayOps := Copied(ops[start..end]);
      var msg := Batch(replayOps, batch + 1, total, batch == total - 1);
      assert msg == Batches(ops, size)[batch];
      if !accepts(batch) { return sent, false; }
      sent := sent + [msg];
    }
    ok := true;
  }

  /** The stored rows as they travel in the message. */
  method Copied(chunk: seq<Op>) returns (replayOps: seq<Op>)
    ensures replayOps == chunk
  {
    replayOps := [];
    for i := 0 to |chunk|
      invariant replayOps == chunk[..i]
    {
      replayOps := replayOps + [Op(chunk[i].seqNo, chunk[i].session, chunk[i].payload)];
    }
  }
}
