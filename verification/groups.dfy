/** Python's insertion-ordered `dict` of lists as the program uses it
    (`defaultdict(list)` and `d.setdefault(k, []).append(x)`): a sequence of
    groups with distinct keys, in the order each key was first appended to. */
module OrderedGroups {
  import opened Seqs

  datatype Group<T> = Group(key: string, items: seq<T>)

  function Keys<T>(gs: seq<Group<T>>): (ks: seq<string>)
    ensures |ks| == |gs|
    ensures forall i :: 0 <= i < |gs| ==> ks[i] == gs[i].key
  {
    if gs == [] then [] else [gs[0].key] + Keys(gs[1..])
  }

  predicate Distinct(ks: seq<string>) {
    forall i, j :: 0 <= i < j < |ks| ==> ks[i] != ks[j]
  }

  predicate DistinctKeys<T>(gs: seq<Group<T>>) {
    Distinct(Keys(gs))
  }

  /** `d.get(k, [])` */
  function ItemsOf<T>(gs: seq<Group<T>>, k: string): (r: seq<T>)
    ensures k !in Keys(gs) ==> r == []
  {
    if gs == [] then [] else if gs[0].key == k then gs[0].items else ItemsOf(gs[1..], k)
  }

  /** Every value of the dict, group after group: `[x for v in d.values() for x in v]`. */
  function Flat<T>(gs: seq<Group<T>>): seq<T> {
    if gs == [] then [] else gs[0].items + Flat(gs[1..])
  }

  /** `d[k].append(x)` on a `defaultdict(list)`: a new key goes to the end. */
  function Append<T>(gs: seq<Group<T>>, k: string, x: T): (r: seq<Group<T>>)
    requires DistinctKeys(gs)
    ensures DistinctKeys(r)
    ensures Keys(r) == if k in Keys(gs) then Keys(gs) else Keys(gs) + [k]
  {
    if gs == [] then
      [Group(k, [x])]
    else if gs[0].key == k then
      var r := [Group(k, gs[0].items + [x])] + gs[1..];
      assert Keys(r) == [k] + Keys(r[1..]) && r[1..] == gs[1..];
      assert Keys(gs) == [k] + Keys(gs[1..]);
      r
    else
      var ks := Keys(gs);
      assert ks == [gs[0].key] + Keys(gs[1..]);
      var rest := Append(gs[1..], k, x);
      var r := [gs[0]] + rest;
      assert r[1..] == rest;
      assert Keys(r) == [gs[0].key] + Keys(rest);
      assert gs[0].key !in Keys(gs[1..]);
      DistinctCons(gs[0].key, Keys(rest));
      r
  }

  lemma DistinctCons(k: string, ks: seq<string>)
    requires Distinct(ks) && k !in ks
    ensures Distinct([k] + ks)
  {
    var s := [k] + ks;
    forall i, j | 0 <= i < j < |s| ensures s[i] != s[j] {
      assert s[j] == ks[j - 1];
      if i > 0 {
        assert s[i] == ks[i - 1];
      }
    }
  }

  /** `d[k].append(x)` adds `x` to the end of list `k` and changes no other list. */
  lemma {:induction false} AppendItems<T>(gs: seq<Group<T>>, k: string, x: T)
    requires DistinctKeys(gs)
    ensures forall h :: ItemsOf(Append(gs, k, x), h) == ItemsOf(gs, h) + (if h == k then [x] else [])
  {
    if gs != [] {
      assert Keys(gs) == [gs[0].key] + Keys(gs[1..]);
      if gs[0].key == k {
        assert k !in Keys(gs[1..]);
      } else {
        AppendItems(gs[1..], k, x);
        assert ([gs[0]] + Append(gs[1..], k, x))[1..] == Append(gs[1..], k, x);
      }
    }
  }

  /** Appending adds exactly one value to the whole dict. */
  lemma {:induction false} AppendFlat<T>(gs: seq<Group<T>>, k: string, x: T)
    requires DistinctKeys(gs)
    ensures multiset(Flat(Append(gs, k, x))) == multiset(Flat(gs)) + multiset{x}
  {
    if gs != [] {
      assert Keys(gs) == [gs[0].key] + Keys(gs[1..]);
      if gs[0].key != k {
        AppendFlat(gs[1..], k, x);
        assert ([gs[0]] + Append(gs[1..], k, x))[1..] == Append(gs[1..], k, x);
      }
    }
  }

  /** Every item of group `k` carries key `k` under `key`. */
  predicate WellKeyed<T>(gs: seq<Group<T>>, key: T -> string) {
    forall i, j :: 0 <= i < |gs| && 0 <= j < |gs[i].items| ==> key(gs[i].items[j]) == gs[i].key
  }

  /** The items of `xs` whose key is `h`, in order. */
  function Having<T>(xs: seq<T>, key: T -> string, h: string): (r: seq<T>)
    ensures |r| <= |xs|
  {
    if xs == [] then []
    else Having(xs[..|xs| - 1], key, h) + (if key(xs[|xs| - 1]) == h then [xs[|xs| - 1]] else [])
  }

  /** The keys in order of first appearance, each once. */
  function FirstSeen(ks: seq<string>): (r: seq<string>)
    ensures Distinct(r)
    ensures forall k :: k in r <==> k in ks
  {
    if ks == [] then []
    else
      var p := FirstSeen(ks[..|ks| - 1]);
      var k := ks[|ks| - 1];
      assert forall j :: j in ks <==> j in ks[..|ks| - 1] || j == k;
      if k in p then p else p + [k]
  }

  function MapKey<T>(xs: seq<T>, key: T -> string): (r: seq<string>)
    ensures |r| == |xs| && forall i :: 0 <= i < |xs| ==> r[i] == key(xs[i])
  {
    if xs == [] then [] else MapKey(xs[..|xs| - 1], key) + [key(xs[|xs| - 1])]
  }

  /** Grouping a list by a key, as the loop `for x in xs: d[key(x)].append(x)` does. */
  function GroupBy<T>(xs: seq<T>, key: T -> string): (r: seq<Group<T>>)
    ensures DistinctKeys(r)
    ensures Keys(r) == FirstSeen(MapKey(xs, key))
    ensures forall h :: ItemsOf(r, h) == Having(xs, key, h)
    ensures multiset(Flat(r)) == multiset(xs)
  {
    if xs == [] then []
    else
      var p := xs[..|xs| - 1];
      var x := xs[|xs| - 1];
      assert MapKey(xs, key)[..|xs| - 1] == MapKey(p, key);
      assert xs == p + [x];
      AppendItems(GroupBy(p, key), key(x), x);
      AppendFlat(GroupBy(p, key), key(x), x);
      Append(GroupBy(p, key), key(x), x)
  }

  /** `d[key(x)].append(x)` for each `x` of `xs` in turn, starting from `gs`. */
  function AppendAll<T>(gs: seq<Group<T>>, xs: seq<T>, key: T -> string): (r: seq<Group<T>>)
    requires DistinctKeys(gs)
    ensures DistinctKeys(r)
  {
    if xs == [] then gs
    else Append(AppendAll(gs, xs[..|xs| - 1], key), key(xs[|xs| - 1]), xs[|xs| - 1])
  }

  /** Grouping is appending every item to an empty dict. */
  lemma {:induction false} GroupByIsAppendAll<T>(xs: seq<T>, key: T -> string)
    ensures GroupBy(xs, key) == AppendAll([], xs, key)
  {
    if xs != [] {
      GroupByIsAppendAll(xs[..|xs| - 1], key);
    }
  }

  /** Appending two runs of items is appending the first, then the second. */
  lemma {:induction false} AppendAllJoin<T>(gs: seq<Group<T>>, a: seq<T>, b: seq<T>, key: T -> string)
    requires DistinctKeys(gs)
    ensures AppendAll(gs, a + b, key) == AppendAll(AppendAll(gs, a, key), b, key)
    decreases |b|
  {
    if b == [] {
      assert a + b == a;
    } else {
      assert (a + b)[..|a + b| - 1] == a + b[..|b| - 1];
      assert (a + b)[|a + b| - 1] == b[|b| - 1];
      AppendAllJoin(gs, a, b[..|b| - 1], key);
    }
  }

  /** A dict's keys stay in place and the new keys follow in the order their
      items first arrive. */
  lemma {:induction false} AppendAllKeys<T>(gs: seq<Group<T>>, xs: seq<T>, key: T -> string)
    requires DistinctKeys(gs)
    ensures Keys(AppendAll(gs, xs, key)) == FirstSeen(Keys(gs) + MapKey(xs, key))
    decreases |xs|
  {
    if xs == [] {
      assert Keys(gs) + MapKey(xs, key) == Keys(gs);
      FirstSeenDistinct(Keys(gs));
    } else {
      var p, x := xs[..|xs| - 1], xs[|xs| - 1];
      AppendAllKeys(gs, p, key);
      assert MapKey(xs, key) == MapKey(p, key) + [key(x)];
      AppendAssoc(Keys(gs), MapKey(p, key), [key(x)]);
      FirstSeenSnoc(Keys(gs) + MapKey(p, key), key(x));
    }
  }

  /** One more key joins the first-appearance order only when it is new. */
  lemma FirstSeenSnoc(ks: seq<string>, k: string)
    ensures FirstSeen(ks + [k]) == if k in FirstSeen(ks) then FirstSeen(ks) else FirstSeen(ks) + [k]
  {
    assert (ks + [k])[..|ks|] == ks;
  }

  /** Keys that are already distinct are their own first-appearance order. */
  lemma {:induction false} FirstSeenDistinct(ks: seq<string>)
    requires Distinct(ks)
    ensures FirstSeen(ks) == ks
  {
    if ks != [] {
      var p := ks[..|ks| - 1];
      FirstSeenDistinct(p);
      assert ks[|ks| - 1] !in p by {
        forall i | 0 <= i < |p| ensures p[i] != ks[|ks| - 1] {
          assert p[i] == ks[i];
        }
      }
    }
  }

  /** Each key's list grows by exactly the appended items with that key. */
  lemma {:induction false} AppendAllItems<T>(gs: seq<Group<T>>, xs: seq<T>, key: T -> string, h: string)
    requires DistinctKeys(gs)
    ensures ItemsOf(AppendAll(gs, xs, key), h) == ItemsOf(gs, h) + Having(xs, key, h)
    decreases |xs|
  {
    if xs != [] {
      var p, x := xs[..|xs| - 1], xs[|xs| - 1];
      AppendAllItems(gs, p, key, h);
      AppendItems(AppendAll(gs, p, key), key(x), x);
    }
  }

  /** No list of the dict is empty. */
  predicate NoEmptyGroup<T>(gs: seq<Group<T>>) {
    forall i :: 0 <= i < |gs| ==> gs[i].items != []
  }

  /** Appending never leaves an empty list behind. */
  lemma {:induction false} AppendNoEmpty<T>(gs: seq<Group<T>>, k: string, x: T)
    requires DistinctKeys(gs) && NoEmptyGroup(gs)
    ensures NoEmptyGroup(Append(gs, k, x))
  {
    if gs != [] && gs[0].key != k {
      assert Keys(gs) == [gs[0].key] + Keys(gs[1..]);
      AppendNoEmpty(gs[1..], k, x);
      var r := Append(gs, k, x);
      assert r == [gs[0]] + Append(gs[1..], k, x);
      forall i | 1 <= i < |r| ensures r[i].items != [] {
        assert r[i] == Append(gs[1..], k, x)[i - 1];
      }
    }
  }

  lemma {:induction false} AppendAllNoEmpty<T>(gs: seq<Group<T>>, xs: seq<T>, key: T -> string)
    requires DistinctKeys(gs) && NoEmptyGroup(gs)
    ensures NoEmptyGroup(AppendAll(gs, xs, key))
    decreases |xs|
  {
    if xs != [] {
      var p := xs[..|xs| - 1];
      AppendAllNoEmpty(gs, p, key);
      AppendNoEmpty(AppendAll(gs, p, key), key(xs[|xs| - 1]), xs[|xs| - 1]);
    }
  }

  /** Grouping leaves no key with an empty list. */
  lemma GroupByNoEmpty<T>(xs: seq<T>, key: T -> string)
    ensures NoEmptyGroup(GroupBy(xs, key))
  {
    GroupByIsAppendAll(xs, key);
    AppendAllNoEmpty([], xs, key);
  }

  /** Grouped items stay under their own key. */
  lemma {:induction false} GroupByWellKeyed<T>(xs: seq<T>, key: T -> string)
    ensures WellKeyed(GroupBy(xs, key), key)
  {
    var gs := GroupBy(xs, key);
    forall i, j | 0 <= i < |gs| && 0 <= j < |gs[i].items|
      ensures key(gs[i].items[j]) == gs[i].key
    {
      ItemsOfAt(gs, i);
      HavingKey(xs, key, gs[i].key);
    }
  }

  lemma {:induction false} HavingKey<T>(xs: seq<T>, key: T -> string, h: string)
    ensures forall j :: 0 <= j < |Having(xs, key, h)| ==> key(Having(xs, key, h)[j]) == h
  {
    if xs != [] {
      HavingKey(xs[..|xs| - 1], key, h);
    }
  }

  /** In a dict with distinct keys, looking up the key of a group finds that group. */
  lemma {:induction false} ItemsOfAt<T>(gs: seq<Group<T>>, i: nat)
    requires DistinctKeys(gs) && i < |gs|
    ensures ItemsOf(gs, gs[i].key) == gs[i].items
  {
    if i > 0 {
      assert Keys(gs)[0] != Keys(gs)[i];
      assert Keys(gs[1..]) == Keys(gs)[1..];
      ItemsOfAt(gs[1..], i - 1);
    }
  }

  /** Appending to a dict keeps every existing list as a prefix of its new list,
      and the existing keys in their order. */
  lemma AppendKeepsPrefix<T>(gs: seq<Group<T>>, k: string, x: T)
    requires DistinctKeys(gs)
    ensures Keys(gs) <= Keys(Append(gs, k, x))
    ensures forall h :: ItemsOf(gs, h) <= ItemsOf(Append(gs, k, x), h)
  {
    AppendItems(gs, k, x);
  }

  lemma {:induction false} FlatAppend<T>(a: seq<Group<T>>, b: seq<Group<T>>)
    ensures Flat(a + b) == Flat(a) + Flat(b)
  {
    if a == [] {
      assert a + b == b;
    } else {
      assert (a + b)[1..] == a[1..] + b;
      FlatAppend(a[1..], b);
    }
  }

  /** Appending an item under its own key keeps the dict well keyed. */
  lemma {:induction false} AppendWellKeyed<T>(gs: seq<Group<T>>, key: T -> string, k: string, x: T)
    requires DistinctKeys(gs) && WellKeyed(gs, key) && key(x) == k
    ensures WellKeyed(Append(gs, key(x), x), key)
  {
    if gs != [] {
      assert Keys(gs) == [gs[0].key] + Keys(gs[1..]);
      if gs[0].key != k {
        AppendWellKeyed(gs[1..], key, k, x);
        assert ([gs[0]] + Append(gs[1..], k, x))[1..] == Append(gs[1..], k, x);
      }
    }
  }

  lemma {:induction false} HavingAppend<T>(a: seq<T>, b: seq<T>, key: T -> string, h: string)
    ensures Having(a + b, key, h) == Having(a, key, h) + Having(b, key, h)
    decreases |b|
  {
    if b == [] {
      assert a + b == a;
    } else {
      assert (a + b)[..|a + b| - 1] == a + b[..|b| - 1];
      HavingAppend(a, b[..|b| - 1], key, h);
    }
  }

  /** Selecting by key from items that all carry key `k`. */
  lemma {:induction false} HavingUniform<T>(xs: seq<T>, key: T -> string, k: string, h: string)
    requires forall x :: x in xs ==> key(x) == k
    ensures Having(xs, key, h) == if h == k then xs else []
  {
    if xs != [] {
      var p, x := xs[..|xs| - 1], xs[|xs| - 1];
      assert p + [x] == xs;
      assert key(x) == k;
      forall y | y in p ensures key(y) == k {
        assert y in xs;
      }
      HavingUniform(p, key, k, h);
    }
  }
}
