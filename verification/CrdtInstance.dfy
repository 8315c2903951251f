/** An encoding that satisfies the laws asked of Automerge, so that nothing proved from them is vacuous: a document is
    saved as the list of its changes, each byte escaped. */
module CrdtInstance {
  import opened Core
  import opened Crdt

  function Escaped(x: Bytes): Bytes {
    if x == [] then [0] else [1, x[0]] + Escaped(x[1..])
  }

  function Packed(xs: seq<Bytes>): Bytes {
    if xs == [] then [2] else Escaped(xs[0]) + Packed(xs[1..])
  }

  lemma EscapedHead(x: Bytes)
    ensures |Escaped(x)| > 0 && Escaped(x)[0] == if x == [] then 0 else 1
  {
  }

  lemma {:induction false} EscapedPrefixFree(x: Bytes, y: Bytes, p: Bytes, q: Bytes)
    requires Escaped(x) + p == Escaped(y) + q
    ensures x == y && p == q
    decreases |x|
  {
    EscapedHead(x);
    EscapedHead(y);
    assert (Escaped(x) + p)[0] == (Escaped(y) + q)[0];
    if x == [] {
      assert (Escaped(x) + p)[1..] == p && (Escaped(y) + q)[1..] == q;
    } else {
      assert (Escaped(x) + p)[1] == x[0] && (Escaped(y) + q)[1] == y[0];
      assert (Escaped(x) + p)[2..] == Escaped(x[1..]) + p && (Escaped(y) + q)[2..] == Escaped(y[1..]) + q;
      EscapedPrefixFree(x[1..], y[1..], p, q);
      assert x == [x[0]] + x[1..] && y == [y[0]] + y[1..];
    }
  }

  lemma PackedHead(xs: seq<Bytes>)
    ensures |Packed(xs)| > 0 && (Packed(xs)[0] == 2 <==> xs == [])
  {
    if xs != [] { EscapedHead(xs[0]); }
  }

  lemma {:induction false} PackedInjective(xs: seq<Bytes>, ys: seq<Bytes>)
    requires Packed(xs) == Packed(ys)
    ensures xs == ys
    decreases |xs|
  {
    PackedHead(xs);
    PackedHead(ys);
    if xs != [] {
      EscapedPrefixFree(xs[0], ys[0], Packed(xs[1..]), Packed(ys[1..]));
      PackedInjective(xs[1..], ys[1..]);
      assert xs == [xs[0]] + xs[1..] && ys == [ys[0]] + ys[1..];
    }
  }

  ghost function Listed(d: Doc): (xs: seq<Bytes>)
    ensures forall x :: x in xs <==> x in d
    decreases |d|
  {
    if d == {} then [] else
      var x :| x in d;
      [x] + Listed(d - {x})
  }

  ghost function Load(b: Bytes): (r: Option<Doc>)
    ensures r.Some? ==> Packed(Listed(r.value)) == b
    ensures r.None? ==> forall d :: Packed(Listed(d)) != b
  {
    if exists d :: Packed(Listed(d)) == b then
      var d :| Packed(Listed(d)) == b;
      Some(d)
    else None
  }

  lemma ListedInjective(d: Doc, e: Doc)
    requires Listed(d) == Listed(e)
    ensures d == e
  {
    var xs := Listed(d);
    assert forall x :: x in d <==> x in xs;
  }

  lemma LoadSaved(d: Doc)
    ensures Load(Packed(Listed(d))) == Some(d)
  {
    var loaded := Load(Packed(Listed(d)));
    PackedInjective(Listed(d), Listed(loaded.value));
    ListedInjective(d, loaded.value);
  }

  /** Every payload is one change. */
  ghost function Instance(): Automerge {
    Automerge(b => Some({b}), d => Packed(Listed(d)), b => Load(b))
  }

  lemma InstanceLaws()
    ensures Instance().Laws()
  {
    forall d: Doc
      ensures Instance().save(d) != [] && Instance().load(Instance().save(d)) == Some(d)
    {
      PackedHead(Listed(d));
      LoadSaved(d);
    }
  }
}
