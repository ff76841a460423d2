/** Python's `sorted(xs, key=k, reverse=True)`: a stable sort, largest key first. */
module StableSort {
  import opened Seqs

  predicate Descending<T>(s: seq<T>, key: T -> int) {
    forall i, j :: 0 <= i < j < |s| ==> key(s[i]) >= key(s[j])
  }

  lemma DescendingAt<T>(s: seq<T>, key: T -> int, i: nat, j: nat)
    requires Descending(s, key) && i < j < |s|
    ensures key(s[i]) >= key(s[j])
  {
  }

  /** The items whose key is `k`, in order. */
  function WithKey<T>(s: seq<T>, key: T -> int, k: int): seq<T> {
    if s == [] then []
    else (if key(s[0]) == k then [s[0]] else []) + WithKey(s[1..], key, k)
  }

  /** Place `x` after every item whose key is at least its own. */
  function Insert<T>(s: seq<T>, key: T -> int, x: T): (r: seq<T>)
    requires Descending(s, key)
    ensures Descending(r, key)
    ensures multiset(r) == multiset(s) + multiset{x}
  {
    if s == [] then [x]
    else if key(s[0]) >= key(x) then
      DescendingTail(s, key);
      var t := Insert(s[1..], key, x);
      HeadLeads(s, key, x, t);
      [s[0]] + t
    else [x] + s
  }

  /** The first item, whose key is at least that of `x`, can stay in front of
      the rest with `x` inserted into it. */
  lemma HeadLeads<T>(s: seq<T>, key: T -> int, x: T, t: seq<T>)
    requires s != [] && Descending(s, key) && key(s[0]) >= key(x)
    requires Descending(t, key) && multiset(t) == multiset(s[1..]) + multiset{x}
    ensures Descending([s[0]] + t, key)
    ensures multiset([s[0]] + t) == multiset(s) + multiset{x}
  {
    assert s == [s[0]] + s[1..];
    forall j | 0 <= j < |t| ensures key(t[j]) <= key(s[0]) {
      assert t[j] in multiset(t);
      if t[j] != x {
        assert t[j] in multiset(s[1..]);
        var m :| 0 <= m < |s[1..]| && s[1..][m] == t[j];
        assert s[m + 1] == t[j];
      }
    }
    var r := [s[0]] + t;
    forall i, j | 0 <= i < j < |r| ensures key(r[i]) >= key(r[j]) {
      if i > 0 {
        assert r[i] == t[i - 1] && r[j] == t[j - 1];
      }
    }
  }

  /** The sorted list is a rearrangement of the input, ordered by key, largest
      first, and items with equal keys keep their input order. */
  function SortDescending<T>(s: seq<T>, key: T -> int): (out: seq<T>)
    ensures multiset(out) == multiset(s)
    ensures Descending(out, key)
    ensures forall k :: WithKey(out, key, k) == WithKey(s, key, k)
  {
    if s == [] then []
    else
      var p := s[..|s| - 1];
      var x := s[|s| - 1];
      var sp := SortDescending(p, key);
      assert s == p + [x];
      forall k ensures WithKey(Insert(sp, key, x), key, k) == WithKey(s, key, k) {
        InsertWithKey(sp, key, x, k);
        WithKeyAppend(p, [x], key, k);
      }
      Insert(sp, key, x)
  }

  /** One step of `WithKey`, for a non-empty list. */
  lemma WithKeyStep<T>(s: seq<T>, key: T -> int, k: int)
    requires s != []
    ensures WithKey(s, key, k) == (if key(s[0]) == k then [s[0]] else []) + WithKey(s[1..], key, k)
  {
  }

  lemma {:induction false} WithKeyAppend<T>(a: seq<T>, b: seq<T>, key: T -> int, k: int)
    ensures WithKey(a + b, key, k) == WithKey(a, key, k) + WithKey(b, key, k)
  {
    if a == [] {
      assert a + b == b;
    } else {
      var head := if key(a[0]) == k then [a[0]] else [];
      assert (a + b)[0] == a[0];
      assert (a + b)[1..] == a[1..] + b;
      WithKeyStep(a + b, key, k);
      WithKeyStep(a, key, k);
      WithKeyAppend(a[1..], b, key, k);
      AppendAssoc(head, WithKey(a[1..], key, k), WithKey(b, key, k));
    }
  }

  lemma {:induction false} WithKeyNone<T>(s: seq<T>, key: T -> int, k: int)
    requires forall i :: 0 <= i < |s| ==> key(s[i]) < k
    ensures WithKey(s, key, k) == []
  {
    if s != [] {
      WithKeyNone(s[1..], key, k);
    }
  }

  lemma {:induction false} InsertWithKey<T>(s: seq<T>, key: T -> int, x: T, k: int)
    requires Descending(s, key)
    ensures WithKey(Insert(s, key, x), key, k) == WithKey(s, key, k) + (if key(x) == k then [x] else [])
  {
    var tail := if key(x) == k then [x] else [];
    if s == [] {
      WithKeyStep([x], key, k);
      assert [x][1..] == [];
    } else if key(s[0]) >= key(x) {
      DescendingTail(s, key);
      var t := Insert(s[1..], key, x);
      InsertBehind(s, key, x);
      InsertWithKey(s[1..], key, x, k);
      ConsWithKey(s, key, k, t, tail);
    } else {
      InsertInFront(s, key, x);
      FrontWithKey(s, key, x, k, tail);
    }
  }

  lemma DescendingTail<T>(s: seq<T>, key: T -> int)
    requires s != [] && Descending(s, key)
    ensures Descending(s[1..], key)
  {
    forall i, j | 0 <= i < j < |s[1..]| ensures key(s[1..][i]) >= key(s[1..][j]) {
      DescendingAt(s, key, i + 1, j + 1);
    }
  }

  /** `x` goes after the first item when that item's key is at least its own. */
  lemma InsertBehind<T>(s: seq<T>, key: T -> int, x: T)
    requires s != [] && Descending(s, key) && key(s[0]) >= key(x)
    ensures Insert(s, key, x) == [s[0]] + Insert(s[1..], key, x)
  {
  }

  /** `x` goes in front when the first item's key is smaller. */
  lemma InsertInFront<T>(s: seq<T>, key: T -> int, x: T)
    requires s != [] && Descending(s, key) && key(s[0]) < key(x)
    ensures Insert(s, key, x) == [x] + s
  {
  }

  lemma ConsWithKey<T>(s: seq<T>, key: T -> int, k: int, t: seq<T>, tail: seq<T>)
    requires s != []
    requires WithKey(t, key, k) == WithKey(s[1..], key, k) + tail
    ensures WithKey([s[0]] + t, key, k) == WithKey(s, key, k) + tail
  {
    var r := [s[0]] + t;
    var head := if key(s[0]) == k then [s[0]] else [];
    assert r[0] == s[0] && r[1..] == t;
    WithKeyStep(r, key, k);
    WithKeyStep(s, key, k);
    AppendAssoc(head, WithKey(s[1..], key, k), tail);
  }

  lemma FrontWithKey<T>(s: seq<T>, key: T -> int, x: T, k: int, tail: seq<T>)
    requires Descending(s, key) && s != [] && key(s[0]) < key(x)
    requires tail == if key(x) == k then [x] else []
    ensures WithKey([x] + s, key, k) == WithKey(s, key, k) + tail
  {
    var r := [x] + s;
    assert r[0] == x && r[1..] == s;
    WithKeyStep(r, key, k);
    if key(x) == k {
      forall i | 0 <= i < |s| ensures key(s[i]) < k {
        if i > 0 {
          DescendingAt(s, key, 0, i);
        }
      }
      WithKeyNone(s, key, k);
    }
  }
}
