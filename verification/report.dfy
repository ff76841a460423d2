/** `print_grouped_results`: per-gateway totals, newest-first ordering,
    and the text of the withdrawal report, ending with one fee line per gateway. */
module Report {
  import opened Options
  import opened Strings
  import opened Money
  import opened Calendar
  import opened OrderedGroups
  import opened Crawler
  import opened StableSort
  import opened Seqs

  function AmountOf(r: TxRecord): Cents { r.amount }

  function FeeOf(r: TxRecord): Cents { r.fee }

  function Amounts(rs: seq<TxRecord>): seq<Cents> { Map(rs, AmountOf) }

  function Fees(rs: seq<TxRecord>): seq<Cents> { Map(rs, FeeOf) }

  // ---- ordering ----

  /** The sort key of `safe_parse_time`: the time as seconds since
      `datetime.min`, and `datetime.min` itself (0) when the time is blank or
      does not parse. */
  function TimeKey(r: TxRecord): (k: int)
    ensures k >= 0
  {
    match ParseTimestamp(r.time)
    case Some(t) => Rank(t)
    case None => 0
  }

  /** `sorted(records, key=safe_parse_time, reverse=True)`: newest first,
      stable among equal times. */
  function SortNewestFirst(rs: seq<TxRecord>): (out: seq<TxRecord>)
    ensures multiset(out) == multiset(rs)
    ensures Descending(out, TimeKey)
    ensures forall k :: WithKey(out, TimeKey, k) == WithKey(rs, TimeKey, k)
  {
    SortDescending(rs, TimeKey)
  }

  /** Records whose time is blank or does not parse come after every record
      that has a time (only other such records, or ones dated exactly at
      `datetime.min`, follow them). */
  lemma MissingTimesLast(rs: seq<TxRecord>, i: nat, j: nat)
    requires i < j < |SortNewestFirst(rs)|
    requires ParseTimestamp(SortNewestFirst(rs)[i].time).None?
    ensures TimeKey(SortNewestFirst(rs)[j]) == 0
  {
    var out := SortNewestFirst(rs);
    assert TimeKey(out[i]) == 0;
    DescendingAt(out, TimeKey, i, j);
  }

  /** For two parsed times the key follows Python's datetime order, and equal
      keys mean equal times. */
  lemma TimeKeyChronological(a: TxRecord, b: TxRecord)
    requires ParseTimestamp(a.time).Some? && ParseTimestamp(b.time).Some?
    ensures TimeKey(a) < TimeKey(b) <==> Earlier(ParseTimestamp(a.time).value, ParseTimestamp(b.time).value)
    ensures TimeKey(a) == TimeKey(b) <==> ParseTimestamp(a.time) == ParseTimestamp(b.time)
  {
    RankOrder(ParseTimestamp(a.time).value, ParseTimestamp(b.time).value);
  }

  /** A blank or unparsable time sorts like `datetime.min`: no higher than any
      parsed time, and level only with a parsed `datetime.min`. */
  lemma MissingTimeIsOldest(a: TxRecord, b: TxRecord)
    requires ParseTimestamp(a.time).Some? && ParseTimestamp(b.time).None?
    ensures TimeKey(b) <= TimeKey(a)
    ensures TimeKey(a) == TimeKey(b) <==> ParseTimestamp(a.time).value == MinTime
  {
    RankZero(ParseTimestamp(a.time).value);
  }

  /** Newest first: in the sorted list no record's parsed time is earlier than
      that of a record after it. */
  lemma SortedNewestFirst(rs: seq<TxRecord>, i: nat, j: nat)
    requires i < j < |SortNewestFirst(rs)|
    requires ParseTimestamp(SortNewestFirst(rs)[i].time).Some?
    requires ParseTimestamp(SortNewestFirst(rs)[j].time).Some?
    ensures !Earlier(ParseTimestamp(SortNewestFirst(rs)[i].time).value,
                     ParseTimestamp(SortNewestFirst(rs)[j].time).value)
  {
    var out := SortNewestFirst(rs);
    DescendingAt(out, TimeKey, i, j);
    TimeKeyChronological(out[i], out[j]);
  }

  // ---- text ----

  /** "record" for exactly one record, "records" otherwise (also for none). */
  function RecordWord(n: nat): (w: string)
    ensures w == "record" <==> n == 1
    ensures w == "records" <==> n != 1
  {
    "record" + (if n != 1 then "s" else "")
  }

  function Header(g: string, rs: seq<TxRecord>): string {
    "\n==== " + g + " (" + NatToString(|rs|) + " " + RecordWord(|rs|)
      + ") | Total Amount: Rs " + Thousands(Sum(Amounts(rs)))
      + " | Total Fee: Rs " + Fixed2(Sum(Fees(rs))) + " ====\n"
  }

  function Entry(n: nat, r: TxRecord): string {
    "\nRecord #" + NatToString(n) + "\nOrder ID: " + r.orderId
      + "\nPhone Number: " + r.phone + "\nAmount: " + Thousands(r.amount)
      + "\nTime: " + r.time + "\n"
  }

  /** The record blocks, numbered from `start`. */
  function Entries(rs: seq<TxRecord>, start: nat): (es: seq<string>)
    ensures |es| == |rs|
    ensures forall i :: 0 <= i < |rs| ==> es[i] == Entry(start + i, rs[i])
  {
    Numbered(rs, start, Entry)
  }

  function Footer(g: string, rs: seq<TxRecord>): string {
    "\n>> Total Amount for " + g + ": Rs " + Thousands(Sum(Amounts(rs))) + "\n"
  }

  /** One gateway's section: header, the records newest first numbered from 1, footer. */
  function Block(grp: Group<TxRecord>): string {
    Header(grp.key, grp.items) + Concat(Entries(SortNewestFirst(grp.items), 1)) + Footer(grp.key, grp.items)
  }

  function Blocks(gs: seq<Group<TxRecord>>): (bs: seq<string>)
    ensures |bs| == |gs| && forall i :: 0 <= i < |gs| ==> bs[i] == Block(gs[i])
  {
    seq(|gs|, i requires 0 <= i < |gs| => Block(gs[i]))
  }

  /** The per-gateway amount totals, in gateway order. */
  function GroupTotals(gs: seq<Group<TxRecord>>): (ts: seq<Cents>)
    ensures |ts| == |gs| && forall i :: 0 <= i < |gs| ==> ts[i] == Sum(Amounts(gs[i].items))
  {
    seq(|gs|, i requires 0 <= i < |gs| => Sum(Amounts(gs[i].items)))
  }

  function GroupSizes(gs: seq<Group<TxRecord>>): seq<int> {
    seq(|gs|, i requires 0 <= i < |gs| => |gs[i].items|)
  }

  function GrandFooter(gs: seq<Group<TxRecord>>): string {
    "\n==== GRAND TOTAL for All Gateways: Rs " + Thousands(Sum(GroupTotals(gs)))
      + " | Total Records: " + NatToString(|Flat(gs)|) + " ====\n\n"
  }

  /** The fee line's date: the first-inserted record's time as DD/MM/YYYY, or
      "Unknown" when it is blank, does not parse, or there is no record. */
  function FeeDate(rs: seq<TxRecord>): string {
    if rs == [] then "Unknown"
    else match ParseTimestamp(rs[0].time)
      case Some(t) => FormatDMY(t.date)
      case None => "Unknown"
  }

  /** `(wd) pg <GATEWAY> <DD/MM/YYYY> | Total Fee: Rs <fee>` */
  function FeeLine(grp: Group<TxRecord>): string {
    "(wd) pg " + grp.key + " " + FeeDate(grp.items) + " | Total Fee: Rs " + Fixed2(Sum(Fees(grp.items))) + "\n"
  }

  function FeeLines(gs: seq<Group<TxRecord>>): (ls: seq<string>)
    ensures |ls| == |gs| && forall i :: 0 <= i < |gs| ==> ls[i] == FeeLine(gs[i])
  {
    seq(|gs|, i requires 0 <= i < |gs| => FeeLine(gs[i]))
  }

  /** The whole report file. */
  function ReportText(gs: seq<Group<TxRecord>>): string {
    Concat(Blocks(gs)) + GrandFooter(gs) + Concat(FeeLines(gs))
  }

  // ---- totals ----

  /** The grand total is the sum of every collected amount, and the record count
      is the number of collected records. */
  lemma {:induction false} GrandTotalIsSumOfAll(gs: seq<Group<TxRecord>>)
    ensures Sum(GroupTotals(gs)) == Sum(Amounts(Flat(gs)))
    ensures Sum(GroupSizes(gs)) == |Flat(gs)|
  {
    if gs != [] {
      GrandTotalIsSumOfAll(gs[1..]);
      assert GroupTotals(gs)[1..] == GroupTotals(gs[1..]);
      assert GroupSizes(gs)[1..] == GroupSizes(gs[1..]);
      MapAppend(gs[0].items, Flat(gs[1..]), AmountOf);
      SumAppend(Amounts(gs[0].items), Amounts(Flat(gs[1..])));
    }
  }

  /** A gateway's total does not depend on the order its rows arrived in. */
  lemma TotalIgnoresArrivalOrder(a: seq<TxRecord>, b: seq<TxRecord>)
    requires multiset(a) == multiset(b)
    ensures Sum(Amounts(a)) == Sum(Amounts(b))
  {
    MapPermutation(a, b, AmountOf);
    SumPermutation(Amounts(a), Amounts(b));
  }

  /** Sorting does not change a gateway's total. */
  lemma SortKeepsTotal(rs: seq<TxRecord>)
    ensures Sum(Amounts(SortNewestFirst(rs))) == Sum(Amounts(rs))
  {
    TotalIgnoresArrivalOrder(SortNewestFirst(rs), rs);
  }
}
