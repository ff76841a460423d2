/** The withdrawal crawler's pure logic: a table row (its cell texts) becomes a
    record or is dropped, a page of rows becomes per-gateway lists, and pages
    are merged into the run's collection with Order-ID deduplication. */
module Crawler {
  import opened Options
  import opened Strings
  import opened Money
  import opened OrderedGroups
  import opened Seqs

  /** The texts of a row's `td` cells, in order. */
  type Row = seq<string>

  datatype TxRecord = TxRecord(gateway: string, orderId: string, phone: string,
                               amount: Cents, time: string, fee: Cents)

  /** What happens to one row: skipped before parsing, dropped by the
      exception handler (an `IndexError` on a missing cell), or parsed. */
  datatype RowOutcome = TooFewCells | SummaryRow | MissingCell | Parsed(record: TxRecord)

  function GatewayOf(r: TxRecord): string { r.gateway }

  function IdOf(r: TxRecord): string { r.orderId }

  /** The amount cell: trimmed, every "Rs" and "," deleted, trimmed again;
      blank or non-numeric text counts as zero. */
  function AmountCell(text: string): (c: Cents)
    ensures ParseDecimal(Strip(RemoveAll(RemoveAll(Strip(text), "Rs"), ","))).None? ==> c == 0
  {
    ParseDecimal(Strip(RemoveAll(RemoveAll(Strip(text), "Rs"), ","))).GetOr(0)
  }

  /** The tax-fee cell: trimmed and "," deleted (no "Rs" removal); blank or
      non-numeric text counts as zero. */
  function FeeCell(text: string): (c: Cents)
    ensures ParseDecimal(RemoveAll(Strip(text), ",")).None? ==> c == 0
  {
    ParseDecimal(RemoveAll(Strip(text), ",")).GetOr(0)
  }

  predicate IsSummaryLabel(first: string) {
    Contains(Strip(first), "Page Summary") || Contains(Strip(first), "Total Summary")
  }

  /** One row of the transaction table. Cells 12 and 13 are always read, so a
      row of 5 to 13 cells fails; a row of more than 21 cells reads its
      gateway from cell 24, so one of 22 to 24 cells fails; up to 21 cells the
      gateway is "Unknown", and the time is read only past 20 cells. */
  function ParseRow(cols: Row): (o: RowOutcome)
    ensures |cols| < 5 <==> o == TooFewCells
    ensures o == SummaryRow <==> |cols| >= 5 && IsSummaryLabel(cols[0])
    ensures o.Parsed? <==> |cols| >= 14 && !(22 <= |cols| <= 24) && !IsSummaryLabel(cols[0])
    ensures o.Parsed? ==> o.record.orderId == Strip(cols[1]) && o.record.phone == Strip(cols[8])
    ensures o.Parsed? ==> o.record.amount == AmountCell(cols[12]) && o.record.fee == FeeCell(cols[13])
    ensures o.Parsed? ==> o.record.gateway == (if |cols| <= 21 then "Unknown" else Strip(cols[24]))
    ensures o.Parsed? ==> o.record.time == (if |cols| <= 20 then "" else Strip(cols[18]))
  {
    if |cols| < 5 then TooFewCells
    else if IsSummaryLabel(cols[0]) then SummaryRow
    else if |cols| < 14 || 22 <= |cols| <= 24 then MissingCell
    else
      Parsed(TxRecord(
        if |cols| > 21 then Strip(cols[24]) else "Unknown",
        Strip(cols[1]),
        Strip(cols[8]),
        AmountCell(cols[12]),
        if |cols| > 20 then Strip(cols[18]) else "",
        FeeCell(cols[13])))
  }

  /** A malformed amount or fee never loses the row: whether a row yields a
      record does not depend on what cells 12 and 13 say. */
  lemma CellTextDoesNotDropRow(cols: Row, amount: string, fee: string)
    requires |cols| >= 14
    ensures ParseRow(cols[12 := amount][13 := fee]).Parsed? == ParseRow(cols).Parsed?
  {
    assert cols[12 := amount][13 := fee][0] == cols[0];
  }

  /** The records of a page, in row order. */
  function PageRecords(rows: seq<Row>): (rs: seq<TxRecord>)
    ensures |rs| <= |rows|
  {
    if rows == [] then []
    else
      var o := ParseRow(rows[|rows| - 1]);
      PageRecords(rows[..|rows| - 1]) + (if o.Parsed? then [o.record] else [])
  }

  /** `extract_transaction_data`: the page's records grouped by gateway. */
  function ExtractPage(rows: seq<Row>): (page: seq<Group<TxRecord>>)
    ensures DistinctKeys(page) && WellKeyed(page, GatewayOf)
    ensures forall h :: ItemsOf(page, h) == Having(PageRecords(rows), GatewayOf, h)
    ensures multiset(Flat(page)) == multiset(PageRecords(rows))
  {
    GroupByWellKeyed(PageRecords(rows), GatewayOf);
    GroupBy(PageRecords(rows), GatewayOf)
  }

  // ---- merging pages ----

  /** The run's collector: `gateway_groups`, `seen_order_ids` and `duplicate_count`. */
  datatype Session = Session(groups: seq<Group<TxRecord>>, seen: set<string>, duplicates: nat)

  const Start := Session([], {}, 0)

  function Ids(rs: seq<TxRecord>): (ids: seq<string>)
    ensures |ids| == |rs| && forall i :: 0 <= i < |rs| ==> ids[i] == rs[i].orderId
  {
    Map(rs, IdOf)
  }

  /** Every collected record is under its own gateway, and every Order ID in
      `seen` belongs to exactly one collected record (and no other ID does). */
  predicate Inv(s: Session) {
    && DistinctKeys(s.groups)
    && WellKeyed(s.groups, GatewayOf)
    && multiset(Ids(Flat(s.groups))) == multiset(s.seen)
  }

  /** One record of gateway `g`: kept if its Order ID is new, counted otherwise. */
  function MergeRecord(s: Session, g: string, r: TxRecord): (s': Session)
    requires DistinctKeys(s.groups)
  {
    if r.orderId in s.seen then s.(duplicates := s.duplicates + 1)
    else Session(Append(s.groups, g, r), s.seen + {r.orderId}, s.duplicates)
  }

  function MergeList(s: Session, g: string, rs: seq<TxRecord>): (s': Session)
    requires DistinctKeys(s.groups)
    ensures DistinctKeys(s'.groups)
    decreases |rs|
  {
    if rs == [] then s else MergeList(MergeRecord(s, g, rs[0]), g, rs[1..])
  }

  /** The merge loop of `run_full_transaction_extraction` for one page. */
  function MergePage(s: Session, page: seq<Group<TxRecord>>): (s': Session)
    requires DistinctKeys(s.groups)
    ensures DistinctKeys(s'.groups)
    decreases |page|
  {
    if page == [] then s else MergePage(MergeList(s, page[0].key, page[0].items), page[1..])
  }

  /** Reference for deduplication: the records of `rs` whose Order ID is
      neither in `seen` nor on an earlier record of `rs`. */
  function Fresh(seen: set<string>, rs: seq<TxRecord>): (f: seq<TxRecord>)
    ensures |f| <= |rs|
    decreases |rs|
  {
    if rs == [] then []
    else if rs[0].orderId in seen then Fresh(seen, rs[1..])
    else [rs[0]] + Fresh(seen + {rs[0].orderId}, rs[1..])
  }

  function IdSet(rs: seq<TxRecord>): set<string> {
    set r | r in rs :: r.orderId
  }

  lemma IdsAppend(a: seq<TxRecord>, b: seq<TxRecord>)
    ensures Ids(a + b) == Ids(a) + Ids(b)
  {
    MapAppend(a, b, IdOf);
  }

  /** Rearranging records rearranges their Order IDs the same way. */
  lemma IdsPermutation(a: seq<TxRecord>, b: seq<TxRecord>)
    requires multiset(a) == multiset(b)
    ensures multiset(Ids(a)) == multiset(Ids(b))
  {
    MapPermutation(a, b, IdOf);
  }

  /** One record keeps the collector consistent. */
  lemma MergeRecordInv(s: Session, g: string, r: TxRecord)
    requires Inv(s) && r.gateway == g
    ensures Inv(MergeRecord(s, g, r))
  {
    if r.orderId !in s.seen {
      var gs := Append(s.groups, g, r);
      var seen' := s.seen + {r.orderId};
      assert MergeRecord(s, g, r) == Session(gs, seen', s.duplicates);
      AppendWellKeyed(s.groups, GatewayOf, g, r);
      IdsAfterAppend(s.groups, g, r);
      SetBagAdd(s.seen, r.orderId);
    }
  }

  lemma SetBagAdd(xs: set<string>, x: string)
    requires x !in xs
    ensures multiset(xs + {x}) == multiset(xs) + multiset{x}
  {
  }

  lemma IdsAfterAppend(gs: seq<Group<TxRecord>>, g: string, r: TxRecord)
    requires DistinctKeys(gs)
    ensures multiset(Ids(Flat(Append(gs, g, r)))) == multiset(Ids(Flat(gs))) + multiset{r.orderId}
  {
    var gs' := Append(gs, g, r);
    AppendFlat(gs, g, r);
    assert multiset(Flat(gs')) == multiset(Flat(gs) + [r]);
    IdsPermutation(Flat(gs'), Flat(gs) + [r]);
    IdsAppend(Flat(gs), [r]);
    assert Ids([r]) == [r.orderId];
  }

  /** One record: a new Order ID is appended to its gateway's list and
      remembered; a repeated one only raises the duplicate count. */
  lemma MergeRecordEffect(s: Session, g: string, r: TxRecord, h: string)
    requires DistinctKeys(s.groups)
    ensures ItemsOf(MergeRecord(s, g, r).groups, h)
      == ItemsOf(s.groups, h) + (if h == g && r.orderId !in s.seen then [r] else [])
    ensures MergeRecord(s, g, r).seen == s.seen + {r.orderId}
    ensures MergeRecord(s, g, r).duplicates == s.duplicates + (if r.orderId in s.seen then 1 else 0)
    ensures Keys(s.groups) <= Keys(MergeRecord(s, g, r).groups)
  {
    if r.orderId !in s.seen {
      AppendItems(s.groups, g, r);
    } else {
      assert s.seen + {r.orderId} == s.seen;
    }
  }

  lemma {:induction false} FreshCons(seen: set<string>, r: TxRecord, rs: seq<TxRecord>)
    ensures Fresh(seen, [r] + rs)
      == (if r.orderId in seen then [] else [r]) + Fresh(seen + {r.orderId}, rs)
  {
    assert ([r] + rs)[1..] == rs;
    if r.orderId in seen {
      assert seen + {r.orderId} == seen;
    }
  }

  lemma {:induction false} MergeListInv(s: Session, g: string, rs: seq<TxRecord>)
    requires Inv(s)
    requires forall r :: r in rs ==> r.gateway == g
    ensures Inv(MergeList(s, g, rs))
    decreases |rs|
  {
    if rs != [] {
      MergeRecordInv(s, g, rs[0]);
      MergeListInv(MergeRecord(s, g, rs[0]), g, rs[1..]);
    }
  }

  /** All records of one gateway's page list, merged in order: the list of `g`
      grows by the records with new Order IDs and every other list is unchanged. */
  lemma {:induction false} MergeListItems(s: Session, g: string, rs: seq<TxRecord>, h: string)
    requires DistinctKeys(s.groups)
    ensures ItemsOf(MergeList(s, g, rs).groups, h)
      == ItemsOf(s.groups, h) + (if h == g then Fresh(s.seen, rs) else [])
    decreases |rs|
  {
    if rs != [] {
      var r := rs[0];
      var s1 := MergeRecord(s, g, r);
      MergeRecordEffect(s, g, r, h);
      MergeListItems(s1, g, rs[1..], h);
      FreshStep(s.seen, rs);
      var e := if h == g && r.orderId !in s.seen then [r] else [];
      var t := if h == g then Fresh(s1.seen, rs[1..]) else [];
      AppendAssoc(ItemsOf(s.groups, h), e, t);
    }
  }

  /** Every Order ID of the list ends up seen, each rejected record is counted
      once, and the existing keys keep their order. */
  lemma MergeListCounts(s: Session, g: string, rs: seq<TxRecord>)
    requires DistinctKeys(s.groups)
    ensures MergeList(s, g, rs).seen == s.seen + IdSet(rs)
    ensures MergeList(s, g, rs).duplicates == s.duplicates + |rs| - |Fresh(s.seen, rs)|
    ensures Keys(s.groups) <= Keys(MergeList(s, g, rs).groups)
  {
    MergeListSeen(s, g, rs);
    MergeListDuplicates(s, g, rs);
  }

  lemma {:induction false} MergeListSeen(s: Session, g: string, rs: seq<TxRecord>)
    requires DistinctKeys(s.groups)
    ensures MergeList(s, g, rs).seen == s.seen + IdSet(rs)
    ensures Keys(s.groups) <= Keys(MergeList(s, g, rs).groups)
    decreases |rs|
  {
    if rs == [] {
      assert IdSet(rs) == {};
    } else {
      var r := rs[0];
      var s1 := MergeRecord(s, g, r);
      MergeRecordEffect(s, g, r, g);
      MergeListSeen(s1, g, rs[1..]);
      assert rs == [r] + rs[1..];
      IdSetCons(r, rs[1..]);
      assert s1.seen + IdSet(rs[1..]) == s.seen + IdSet(rs);
    }
  }

  lemma {:induction false} MergeListDuplicates(s: Session, g: string, rs: seq<TxRecord>)
    requires DistinctKeys(s.groups)
    ensures MergeList(s, g, rs).duplicates == s.duplicates + |rs| - |Fresh(s.seen, rs)|
    decreases |rs|
  {
    if rs != [] {
      var r := rs[0];
      var s1 := MergeRecord(s, g, r);
      MergeRecordEffect(s, g, r, g);
      MergeListDuplicates(s1, g, rs[1..]);
      FreshStep(s.seen, rs);
    }
  }

  lemma {:induction false} FreshAppend(seen: set<string>, a: seq<TxRecord>, b: seq<TxRecord>)
    ensures Fresh(seen, a + b) == Fresh(seen, a) + Fresh(seen + IdSet(a), b)
    decreases |a|
  {
    if a == [] {
      assert a + b == b;
      assert seen + IdSet(a) == seen;
    } else {
      var x, t := a[0], a[1..];
      var seen' := seen + {x.orderId};
      assert (a + b)[1..] == t + b;
      FreshStep(seen, a + b);
      FreshStep(seen, a);
      FreshAppend(seen', t, b);
      assert a == [x] + t;
      IdSetCons(x, t);
      assert seen' + IdSet(t) == seen + IdSet(a);
      var pre := if x.orderId in seen then [] else [x];
      AppendAssoc(pre, Fresh(seen', t), Fresh(seen + IdSet(a), b));
    }
  }

  /** One step of `Fresh`, for a non-empty list. */
  lemma FreshStep(seen: set<string>, rs: seq<TxRecord>)
    requires rs != []
    ensures Fresh(seen, rs)
      == (if rs[0].orderId in seen then [] else [rs[0]]) + Fresh(seen + {rs[0].orderId}, rs[1..])
  {
    if rs[0].orderId in seen {
      assert seen + {rs[0].orderId} == seen;
    }
  }

  lemma IdSetCons(x: TxRecord, t: seq<TxRecord>)
    ensures IdSet([x] + t) == {x.orderId} + IdSet(t)
  {
    assert forall r :: r in [x] + t <==> r == x || r in t;
  }

  lemma {:induction false} FreshSubset(seen: set<string>, rs: seq<TxRecord>)
    ensures forall r :: r in Fresh(seen, rs) ==> r in rs && r.orderId !in seen
    decreases |rs|
  {
    if rs != [] {
      FreshSubset(seen, rs[1..]);
      FreshSubset(seen + {rs[0].orderId}, rs[1..]);
    }
  }

  lemma FirstGroupUniform(page: seq<Group<TxRecord>>)
    requires page != [] && WellKeyed(page, GatewayOf)
    ensures forall r :: r in page[0].items ==> r.gateway == page[0].key
    ensures WellKeyed(page[1..], GatewayOf)
  {
    forall r | r in page[0].items ensures r.gateway == page[0].key {
      var j :| 0 <= j < |page[0].items| && page[0].items[j] == r;
      assert GatewayOf(page[0].items[j]) == page[0].key;
    }
    forall i, j | 0 <= i < |page[1..]| && 0 <= j < |page[1..][i].items|
      ensures GatewayOf(page[1..][i].items[j]) == page[1..][i].key
    {
      assert page[1..][i] == page[i + 1];
    }
  }

  lemma {:induction false} MergePageInv(s: Session, page: seq<Group<TxRecord>>)
    requires Inv(s) && WellKeyed(page, GatewayOf)
    ensures Inv(MergePage(s, page))
    decreases |page|
  {
    if page != [] {
      FirstGroupUniform(page);
      MergeListInv(s, page[0].key, page[0].items);
      MergePageInv(MergeList(s, page[0].key, page[0].items), page[1..]);
    }
  }

  /** Merging one page: each gateway's list grows by exactly the page's records
      of that gateway whose Order IDs are new (first occurrence in merge order
      wins), and every other record is left where it was. */
  lemma {:induction false} MergePageItems(s: Session, page: seq<Group<TxRecord>>, h: string)
    requires DistinctKeys(s.groups) && WellKeyed(page, GatewayOf)
    ensures ItemsOf(MergePage(s, page).groups, h)
      == ItemsOf(s.groups, h) + Having(Fresh(s.seen, Flat(page)), GatewayOf, h)
    decreases |page|
  {
    if page != [] {
      var g, rs := page[0].key, page[0].items;
      FirstGroupUniform(page);
      var s1 := MergeList(s, g, rs);
      var rest := Flat(page[1..]);
      var f1, f2 := Fresh(s.seen, rs), Fresh(s1.seen, rest);
      calc {
        ItemsOf(MergePage(s, page).groups, h);
        ItemsOf(MergePage(s1, page[1..]).groups, h);
        { MergePageItems(s1, page[1..], h); }
        ItemsOf(s1.groups, h) + Having(f2, GatewayOf, h);
        { MergeListItems(s, g, rs, h);
          FreshSubset(s.seen, rs);
          HavingUniform(f1, GatewayOf, g, h); }
        ItemsOf(s.groups, h) + Having(f1, GatewayOf, h) + Having(f2, GatewayOf, h);
        { AppendAssoc(ItemsOf(s.groups, h), Having(f1, GatewayOf, h), Having(f2, GatewayOf, h));
          HavingAppend(f1, f2, GatewayOf, h); }
        ItemsOf(s.groups, h) + Having(f1 + f2, GatewayOf, h);
        { MergeListCounts(s, g, rs);
          assert Flat(page) == rs + rest;
          FreshAppend(s.seen, rs, rest); }
        ItemsOf(s.groups, h) + Having(Fresh(s.seen, Flat(page)), GatewayOf, h);
      }
    }
  }

  /** Merging one page remembers all its Order IDs, counts every rejected
      record once as a duplicate and keeps the existing gateways in order. */
  lemma {:induction false} MergePageCounts(s: Session, page: seq<Group<TxRecord>>)
    requires DistinctKeys(s.groups)
    ensures MergePage(s, page).seen == s.seen + IdSet(Flat(page))
    ensures MergePage(s, page).duplicates == s.duplicates + |Flat(page)| - |Fresh(s.seen, Flat(page))|
    ensures Keys(s.groups) <= Keys(MergePage(s, page).groups)
    decreases |page|
  {
    if page == [] {
      assert IdSet([]) == {};
    } else {
      var g, rs := page[0].key, page[0].items;
      var s1 := MergeList(s, g, rs);
      MergeListCounts(s, g, rs);
      MergePageCounts(s1, page[1..]);
      var rest := Flat(page[1..]);
      assert Flat(page) == rs + rest;
      FreshAppend(s.seen, rs, rest);
      assert IdSet(rs + rest) == IdSet(rs) + IdSet(rest);
    }
  }

  /** All records of one gateway's page list, merged in order: the dict is the
      old one with the records of new Order IDs appended one by one. */
  lemma {:induction false} MergeListGroups(s: Session, g: string, rs: seq<TxRecord>)
    requires DistinctKeys(s.groups)
    requires forall r :: r in rs ==> r.gateway == g
    ensures MergeList(s, g, rs).groups == AppendAll(s.groups, Fresh(s.seen, rs), GatewayOf)
    decreases |rs|
  {
    if rs != [] {
      var r := rs[0];
      var s1 := MergeRecord(s, g, r);
      MergeListGroups(s1, g, rs[1..]);
      MergeRecordEffect(s, g, r, g);
      FreshStep(s.seen, rs);
      var e := if r.orderId in s.seen then [] else [r];
      assert s1.groups == AppendAll(s.groups, e, GatewayOf) by {
        assert [r][..0] == [];
      }
      AppendAllJoin(s.groups, e, Fresh(s1.seen, rs[1..]), GatewayOf);
    }
  }

  /** Merging one page is `d[r.gateway].append(r)` for each record whose Order
      ID is new, in merge order: existing gateways keep their place and lists,
      new gateways follow in the order their first new record arrives. */
  lemma {:induction false} MergePageGroups(s: Session, page: seq<Group<TxRecord>>)
    requires DistinctKeys(s.groups) && WellKeyed(page, GatewayOf)
    ensures MergePage(s, page).groups == AppendAll(s.groups, Fresh(s.seen, Flat(page)), GatewayOf)
    decreases |page|
  {
    if page == [] {
      assert Fresh(s.seen, []) == [];
    } else {
      var g, rs := page[0].key, page[0].items;
      FirstGroupUniform(page);
      var s1 := MergeList(s, g, rs);
      MergeListGroups(s, g, rs);
      MergeListCounts(s, g, rs);
      MergePageGroups(s1, page[1..]);
      var rest := Flat(page[1..]);
      assert Flat(page) == rs + rest;
      FreshAppend(s.seen, rs, rest);
      AppendAllJoin(s.groups, Fresh(s.seen, rs), Fresh(s1.seen, rest), GatewayOf);
    }
  }

  /** The dict order a page merge leaves: the old gateways first, in their
      order, then the new ones in the order of their first new record; and no
      gateway ends up with an empty list. */
  lemma MergePageKeys(s: Session, page: seq<Group<TxRecord>>)
    requires DistinctKeys(s.groups) && NoEmptyGroup(s.groups) && WellKeyed(page, GatewayOf)
    ensures Keys(MergePage(s, page).groups)
      == FirstSeen(Keys(s.groups) + MapKey(Fresh(s.seen, Flat(page)), GatewayOf))
    ensures Keys(s.groups) <= Keys(MergePage(s, page).groups)
    ensures NoEmptyGroup(MergePage(s, page).groups)
  {
    var f := Fresh(s.seen, Flat(page));
    MergePageGroups(s, page);
    AppendAllKeys(s.groups, f, GatewayOf);
    AppendAllNoEmpty(s.groups, f, GatewayOf);
    MergePageCounts(s, page);
  }

  /** First occurrence wins: the kept records have distinct Order IDs, none
      already seen, and every record whose Order ID is new and not on an
      earlier record is kept. */
  lemma FreshFirstWins(seen: set<string>, rs: seq<TxRecord>)
    ensures Distinct(Ids(Fresh(seen, rs)))
    ensures forall r :: r in Fresh(seen, rs) ==> r in rs && r.orderId !in seen
    ensures forall i :: (0 <= i < |rs| && rs[i].orderId !in seen
      && (forall j :: 0 <= j < i ==> rs[j].orderId != rs[i].orderId)) ==> rs[i] in Fresh(seen, rs)
  {
    FreshSubset(seen, rs);
    FreshDistinct(seen, rs);
    forall i | 0 <= i < |rs| && rs[i].orderId !in seen
      && (forall j :: 0 <= j < i ==> rs[j].orderId != rs[i].orderId)
      ensures rs[i] in Fresh(seen, rs)
    {
      FreshKeeps(seen, rs, i);
    }
  }

  lemma {:induction false} FreshDistinct(seen: set<string>, rs: seq<TxRecord>)
    ensures Distinct(Ids(Fresh(seen, rs)))
    decreases |rs|
  {
    if rs != [] {
      var x := rs[0];
      var seen' := seen + {x.orderId};
      assert rs == [x] + rs[1..];
      FreshCons(seen, x, rs[1..]);
      FreshDistinct(seen', rs[1..]);
      if x.orderId in seen {
        assert seen' == seen;
      } else {
        var t := Fresh(seen', rs[1..]);
        FreshSubset(seen', rs[1..]);
        assert Ids([x] + t) == [x.orderId] + Ids(t);
        assert x.orderId !in Ids(t) by {
          forall k | 0 <= k < |t| ensures Ids(t)[k] != x.orderId {
            assert t[k] in t;
          }
        }
        DistinctCons(x.orderId, Ids(t));
      }
    }
  }

  /** The record at `i` is kept when its Order ID is new and not on an earlier record. */
  lemma {:induction false} FreshKeeps(seen: set<string>, rs: seq<TxRecord>, i: nat)
    requires i < |rs| && rs[i].orderId !in seen
    requires forall j :: 0 <= j < i ==> rs[j].orderId != rs[i].orderId
    ensures rs[i] in Fresh(seen, rs)
    decreases i
  {
    var x := rs[0];
    assert rs == [x] + rs[1..];
    FreshCons(seen, x, rs[1..]);
    if i > 0 {
      var seen' := if x.orderId in seen then seen else seen + {x.orderId};
      assert seen' == seen + {x.orderId};
      assert rs[i] == rs[1..][i - 1];
      assert rs[0].orderId != rs[i].orderId;
      forall j | 0 <= j < i - 1 ensures rs[1..][j].orderId != rs[1..][i - 1].orderId {
        assert rs[1..][j] == rs[j + 1];
      }
      FreshKeeps(seen', rs[1..], i - 1);
    }
  }

  /** Each kept record adds one new Order ID to the seen set. */
  lemma {:induction false} FreshCard(seen: set<string>, rs: seq<TxRecord>)
    ensures |seen + IdSet(rs)| == |seen| + |Fresh(seen, rs)|
    decreases |rs|
  {
    if rs == [] {
      assert IdSet(rs) == {};
    } else {
      var x := rs[0];
      assert IdSet(rs) == {x.orderId} + IdSet(rs[1..]);
      assert seen + IdSet(rs) == (seen + {x.orderId}) + IdSet(rs[1..]);
      FreshCard(seen + {x.orderId}, rs[1..]);
      if x.orderId in seen {
        assert seen + {x.orderId} == seen;
      }
    }
  }

  /** In a consistent collector, there is one record per seen Order ID. */
  lemma CollectedSize(s: Session)
    requires Inv(s)
    ensures |Flat(s.groups)| == |s.seen|
  {
    assert |Ids(Flat(s.groups))| == |multiset(Ids(Flat(s.groups)))|;
    assert |multiset(s.seen)| == |s.seen|;
  }

  /** The records of all pages, page after page, in row order. */
  function AllRecords(pages: seq<seq<Row>>): seq<TxRecord> {
    if pages == [] then [] else AllRecords(pages[..|pages| - 1]) + PageRecords(pages[|pages| - 1])
  }

  /** `run_full_transaction_extraction` over a given finite list of pages:
      extract each page and merge it into the collector. At the end no Order
      ID is held twice, and every record read was either collected or counted
      as a duplicate. */
  function Run(pages: seq<seq<Row>>): (s: Session)
    ensures Inv(s)
    ensures s.duplicates + |Flat(s.groups)| == |AllRecords(pages)|
  {
    if pages == [] then
      assert multiset(Ids([])) == multiset{};
      Start
    else
      var s0 := Run(pages[..|pages| - 1]);
      var page := ExtractPage(pages[|pages| - 1]);
      var s1 := MergePage(s0, page);
      MergePageInv(s0, page);
      MergePageCounts(s0, page);
      FreshCard(s0.seen, Flat(page));
      CollectedSize(s0);
      CollectedSize(s1);
      assert |Flat(page)| == |multiset(Flat(page))| == |PageRecords(pages[|pages| - 1])|;
      s1
  }

  /** The records of all pages in the order the merge visits them: page after
      page, and within a page gateway after gateway. */
  function Merged(pages: seq<seq<Row>>): seq<TxRecord> {
    if pages == [] then [] else Merged(pages[..|pages| - 1]) + Flat(ExtractPage(pages[|pages| - 1]))
  }

  /** The run as one dict fold: its groups are the records of all pages, first
      occurrence of each Order ID only, appended one by one. */
  lemma {:induction false} RunAppendAll(pages: seq<seq<Row>>)
    ensures Run(pages).groups == AppendAll([], Fresh({}, Merged(pages)), GatewayOf)
    ensures Run(pages).seen == IdSet(Merged(pages))
    ensures multiset(Merged(pages)) == multiset(AllRecords(pages))
  {
    if pages == [] {
      assert IdSet([]) == {};
    } else {
      var pre, rows := pages[..|pages| - 1], pages[|pages| - 1];
      var page := ExtractPage(rows);
      RunAppendAll(pre);
      assert Run(pages) == MergePage(Run(pre), page);
      MergeAfter(Run(pre), page, Merged(pre));
    }
  }

  /** One more page on top of a collector that holds the fold of `m`. */
  lemma MergeAfter(s: Session, page: seq<Group<TxRecord>>, m: seq<TxRecord>)
    requires WellKeyed(page, GatewayOf)
    requires s.groups == AppendAll([], Fresh({}, m), GatewayOf) && s.seen == IdSet(m)
    ensures MergePage(s, page).groups == AppendAll([], Fresh({}, m + Flat(page)), GatewayOf)
    ensures MergePage(s, page).seen == IdSet(m + Flat(page))
  {
    MergePageGroups(s, page);
    MergePageCounts(s, page);
    FreshAppend({}, m, Flat(page));
    assert {} + IdSet(m) == s.seen;
    AppendAllJoin([], Fresh({}, m), Fresh(s.seen, Flat(page)), GatewayOf);
    assert IdSet(m + Flat(page)) == IdSet(m) + IdSet(Flat(page));
  }

  /** What the run collects: `gateway_groups` is the insertion-ordered grouping
      by gateway of every page's records, page after page, keeping the first
      record of each Order ID; `seen_order_ids` holds the Order ID of every
      record read; no gateway has an empty list; and the records visited are
      exactly the records of all pages. */
  lemma RunCollects(pages: seq<seq<Row>>)
    ensures Run(pages).groups == GroupBy(Fresh({}, Merged(pages)), GatewayOf)
    ensures forall h :: ItemsOf(Run(pages).groups, h) == Having(Fresh({}, Merged(pages)), GatewayOf, h)
    ensures Keys(Run(pages).groups) == FirstSeen(MapKey(Fresh({}, Merged(pages)), GatewayOf))
    ensures NoEmptyGroup(Run(pages).groups)
    ensures Run(pages).seen == IdSet(Merged(pages))
    ensures multiset(Merged(pages)) == multiset(AllRecords(pages))
  {
    RunAppendAll(pages);
    GroupByIsAppendAll(Fresh({}, Merged(pages)), GatewayOf);
    GroupByNoEmpty(Fresh({}, Merged(pages)), GatewayOf);
  }

  /** Across the whole run no two collected records share an Order ID. */
  lemma RunHasNoDuplicateIds(pages: seq<seq<Row>>)
    ensures Distinct(Ids(Flat(Run(pages).groups)))
  {
    SetBagDistinct(Ids(Flat(Run(pages).groups)), Run(pages).seen);
  }

  lemma SetBagDistinct(xs: seq<string>, ys: set<string>)
    requires multiset(xs) == multiset(ys)
    ensures Distinct(xs)
  {
    forall i, j | 0 <= i < j < |xs| ensures xs[i] != xs[j] {
      var v := xs[i];
      assert xs == xs[..j] + [xs[j]] + xs[j + 1..];
      assert v in xs[..j];
      assert multiset(xs)[v] >= multiset(xs[..j])[v] + multiset([xs[j]])[v];
      assert multiset(xs)[v] <= 1;
    }
  }
}
