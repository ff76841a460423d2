/** Element-wise mapping of sequences, and the fact that mapping respects
    rearrangement. */
module Seqs {

  function Map<T, U>(s: seq<T>, f: T -> U): (r: seq<U>)
    ensures |r| == |s| && forall i :: 0 <= i < |s| ==> r[i] == f(s[i])
  {
    seq(|s|, i requires 0 <= i < |s| => f(s[i]))
  }

  /** `f` of each element and its position, positions counted from `start`. */
  function Numbered<T, U>(s: seq<T>, start: nat, f: (nat, T) -> U): (r: seq<U>)
    ensures |r| == |s| && forall i :: 0 <= i < |s| ==> r[i] == f(start + i, s[i])
  {
    seq(|s|, i requires 0 <= i < |s| => f(start + i, s[i]))
  }

  /** Joining is associative; stated apart so that proofs with many sequence
      terms in scope need not rediscover it. */
  lemma AppendAssoc<T>(a: seq<T>, b: seq<T>, c: seq<T>)
    ensures (a + b) + c == a + (b + c)
  {
  }

  /** Every element satisfies `P` exactly when the first one and every later one do. */
  lemma AllCons<T>(s: seq<T>, P: T -> bool)
    requires s != []
    ensures (forall i :: 0 <= i < |s| ==> P(s[i]))
      <==> P(s[0]) && forall i :: 0 <= i < |s[1..]| ==> P(s[1..][i])
  {
    if P(s[0]) && forall i :: 0 <= i < |s[1..]| ==> P(s[1..][i]) {
      forall i | 0 < i < |s| ensures P(s[i]) {
        assert s[i] == s[1..][i - 1];
      }
    }
  }

  lemma MapAppend<T, U>(a: seq<T>, b: seq<T>, f: T -> U)
    ensures Map(a + b, f) == Map(a, f) + Map(b, f)
  {
  }

  /** Rearranging the input rearranges the mapped output the same way. */
  lemma {:induction false} MapPermutation<T, U>(a: seq<T>, b: seq<T>, f: T -> U)
    requires multiset(a) == multiset(b)
    ensures multiset(Map(a, f)) == multiset(Map(b, f))
    decreases |a|
  {
    if a == [] {
      assert |b| == |multiset(b)| == 0;
    } else {
      var x := a[0];
      assert x in multiset(b);
      var i :| 0 <= i < |b| && b[i] == x;
      var b' := RemoveAt(b, i);
      assert a == [x] + a[1..];
      assert multiset(a[1..]) == multiset(a) - multiset{x};
      MapPermutation(a[1..], b', f);
      MapCons(a, f);
      MapRemoveAt(b, i, f);
    }
  }

  lemma MapCons<T, U>(s: seq<T>, f: T -> U)
    requires s != []
    ensures multiset(Map(s, f)) == multiset(Map(s[1..], f)) + multiset{f(s[0])}
  {
    var m := Map(s, f);
    assert m[1..] == Map(s[1..], f);
    assert m == [m[0]] + m[1..];
  }

  /** `s` without its element at `i`. */
  function RemoveAt<T>(s: seq<T>, i: nat): (r: seq<T>)
    requires i < |s|
    ensures |r| == |s| - 1
    ensures multiset(r) == multiset(s) - multiset{s[i]}
  {
    assert s == s[..i] + [s[i]] + s[i + 1..];
    s[..i] + s[i + 1..]
  }

  lemma MapRemoveAt<T, U>(s: seq<T>, i: nat, f: T -> U)
    requires i < |s|
    ensures multiset(Map(s, f)) == multiset(Map(RemoveAt(s, i), f)) + multiset{f(s[i])}
  {
    var l, r := s[..i], s[i + 1..];
    assert s == l + [s[i]] + r;
    MapAppend(l + [s[i]], r, f);
    MapAppend(l, [s[i]], f);
    MapAppend(l, r, f);
  }

  /** The pieces `f` makes of each element, joined in order. */
  function Flatten<T, U>(xs: seq<T>, f: T -> seq<U>): seq<U> {
    if xs == [] then [] else f(xs[0]) + Flatten(xs[1..], f)
  }

  /** When `f` makes one piece of each element, joining the pieces lines
      them up one to one with the elements. */
  lemma {:induction false} FlattenSingles<T, U>(xs: seq<T>, f: T -> seq<U>)
    requires forall i :: 0 <= i < |xs| ==> |f(xs[i])| == 1
    ensures |Flatten(xs, f)| == |xs|
    ensures forall i :: 0 <= i < |xs| ==> Flatten(xs, f)[i] == f(xs[i])[0]
  {
    if xs != [] {
      var tail := xs[1..];
      forall i | 0 <= i < |tail| ensures |f(tail[i])| == 1 {
        assert tail[i] == xs[i + 1];
      }
      FlattenSingles(tail, f);
      var r := Flatten(xs, f);
      assert r == f(xs[0]) + Flatten(tail, f);
      forall i | 0 < i < |xs| ensures r[i] == f(xs[i])[0] {
        assert r[i] == Flatten(tail, f)[i - 1] && tail[i - 1] == xs[i];
      }
    }
  }

  /** When `f` makes one piece of each element and `P` relates `g` of that
      piece to its element, `P` relates the mapped, joined pieces to the
      elements one to one. */
  lemma FlattenPointwise<T, U, V>(xs: seq<T>, f: T -> seq<U>, g: U -> V, P: (V, T) -> bool)
    requires forall i :: 0 <= i < |xs| ==> |f(xs[i])| == 1 && P(g(f(xs[i])[0]), xs[i])
    ensures |Map(Flatten(xs, f), g)| == |xs|
    ensures forall i :: 0 <= i < |xs| ==> P(Map(Flatten(xs, f), g)[i], xs[i])
  {
    FlattenSingles(xs, f);
  }
}
