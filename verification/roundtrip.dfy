/** The hand-off between the two programs: the withdrawal report's last
    section is the input of the tax tool, which cuts it out after the grand
    total line and runs its fee-line pattern over it. This module states which
    of the report's fee lines the pattern reads back, and with which fields. */
module FeeRoundTrip {
  import opened Options
  import opened Strings
  import opened Money
  import opened Calendar
  import opened OrderedGroups
  import opened Crawler
  import opened Report
  import opened FeeMatcher
  import opened FeeScan
  import opened Seqs

  /** A gateway name the pattern's `\w+` group reads whole: ASCII letters and digits. */
  predicate PlainKey(k: string) {
    |k| > 0 && AllIn(k, Alnum)
  }

  /** A gateway name of several words, such as `MOHAMMED AMEER ABBAS`: a first
      word of letters and digits, a space, then a letter, and no parenthesis. */
  predicate SpacedKey(k: string) {
    var i := Span(k, 0, Alnum);
    0 < i && i + 1 < |k| && k[i] == ' ' && IsLetter(k[i + 1]) && Lacks(k, '(')
  }

  /** The gateway names the crawler's table produces, as far as this module
      covers them. */
  predicate KnownShape(k: string) {
    PlainKey(k) || SpacedKey(k)
  }

  /** The fee printed on a gateway's line: the sum of its records' fees. */
  function GroupFee(grp: Group<TxRecord>): Cents {
    Sum(Fees(grp.items))
  }

  /** A group whose fee line the pattern reads: one-word name, a known date
      and a fee that is not negative. */
  predicate Readable(grp: Group<TxRecord>) {
    PlainKey(grp.key) && FeeDate(grp.items) != "Unknown" && GroupFee(grp) >= 0
  }

  /** What the pattern makes of one group's fee line. */
  function ReadOf(grp: Group<TxRecord>): seq<FeeMatch> {
    if Readable(grp) then [FeeMatch("wd", grp.key, FeeDate(grp.items), Fixed2(GroupFee(grp)))] else []
  }

  /** The reference result: one match per readable group, in report order. */
  function ReadBack(gs: seq<Group<TxRecord>>): seq<FeeMatch> {
    if gs == [] then [] else ReadOf(gs[0]) + ReadBack(gs[1..])
  }

  // ---- shapes of the printed fields ----

  lemma DigitsIn(x: string, k: CharClass)
    requires AllDigits(x) && (k == DigitSlash || k == DigitComma || k == Digit)
    ensures AllIn(x, k) && Lacks(x, '(') && Lacks(x, '\n')
  {
  }

  /** A date printed by `%d/%m/%Y` is digits and slashes. */
  lemma DateChars(d: Date)
    ensures var x := FormatDMY(d); |x| > 0 && AllIn(x, DigitSlash) && Lacks(x, '(')
  {
    var a, b, c := PadNat(d.day, 2), PadNat(d.month, 2), PadNat(d.year, 4);
    DigitsIn(a, DigitSlash);
    DigitsIn(b, DigitSlash);
    DigitsIn(c, DigitSlash);
    var x := a + "/" + b + "/" + c;
    forall i | 0 <= i < |x| ensures InClass(x[i], DigitSlash) && x[i] != '(' {
      if i < |a| {
        assert x[i] == a[i];
      } else if i == |a| {
      } else if i < |a| + 1 + |b| {
        assert x[i] == b[i - |a| - 1];
      } else if i == |a| + 1 + |b| {
      } else {
        assert x[i] == c[i - |a| - 2 - |b|];
      }
    }
  }

  /** The fee line's date field is `Unknown`, or digits and slashes. */
  lemma FeeDateChars(rs: seq<TxRecord>)
    ensures var x := FeeDate(rs);
      (x == "Unknown" || (|x| > 0 && AllIn(x, DigitSlash))) && Lacks(x, '(')
  {
    if rs != [] && ParseTimestamp(rs[0].time).Some? {
      DateChars(ParseTimestamp(rs[0].time).value.date);
    }
  }

  /** `:.2f` of an amount that is not negative is whole rupees, a point and two
      digits; of a negative one, it starts with a minus sign. Neither has a
      parenthesis. */
  lemma Fixed2Chars(c: Cents)
    ensures c >= 0 ==> Fixed2(c) == NatToString(Rupees(c)) + "." + TwoDigits(Paise(c))
    ensures c < 0 ==> Fixed2(c)[0] == '-'
    ensures Lacks(Fixed2(c), '(')
  {
    var w, f := NatToString(Rupees(c)), TwoDigits(Paise(c));
    FixedSign(c);
    DigitsIn(w, Digit);
    DigitsIn(f, Digit);
    LacksConcat(w, ".", '(');
    LacksConcat(w + ".", f, '(');
    LacksConcat("-", w + "." + f, '(');
  }

  /** `:,.2f` prints no line break. */
  lemma ThousandsOneLine(c: Cents)
    ensures Lacks(Thousands(c), '\n')
  {
    var w := NatToString(Rupees(c));
    var f := TwoDigits(Paise(c));
    GroupedOneLine(w);
    DigitsIn(f, Digit);
    var g := GroupDigits(w);
    LacksConcat(g, ".", '\n');
    LacksConcat(g + ".", f, '\n');
    LacksConcat("-", g + "." + f, '\n');
  }

  lemma {:induction false} GroupedOneLine(s: string)
    requires AllDigits(s)
    ensures Lacks(GroupDigits(s), '\n')
    decreases |s|
  {
    if |s| > 3 {
      var h, t := s[..|s| - 3], s[|s| - 3..];
      GroupedOneLine(h);
      LacksConcat(GroupDigits(h), ",", '\n');
      LacksConcat(GroupDigits(h) + ",", t, '\n');
    }
  }

  // ---- one fee line ----

  /** The fields a fee line is printed from. */
  datatype FeeRow = FeeRow(key: string, date: string, fee: Cents)

  function RowOf(grp: Group<TxRecord>): FeeRow {
    FeeRow(grp.key, FeeDate(grp.items), GroupFee(grp))
  }

  function Rows(gs: seq<Group<TxRecord>>): seq<FeeRow> {
    seq(|gs|, i requires 0 <= i < |gs| => RowOf(gs[i]))
  }

  function RowLine(r: FeeRow): string {
    Line("wd", r.key, r.date, Fixed2(r.fee))
  }

  function RowLines(rows: seq<FeeRow>): seq<string> {
    seq(|rows|, i requires 0 <= i < |rows| => RowLine(rows[i]))
  }

  predicate RowReadable(r: FeeRow) {
    PlainKey(r.key) && r.date != "Unknown" && r.fee >= 0
  }

  function RowRead(r: FeeRow): seq<FeeMatch> {
    if RowReadable(r) then [FeeMatch("wd", r.key, r.date, Fixed2(r.fee))] else []
  }

  function RowReads(rows: seq<FeeRow>): seq<seq<FeeMatch>> {
    seq(|rows|, i requires 0 <= i < |rows| => RowRead(rows[i]))
  }

  /** The rows the report can print: a known name shape, and a date that is
      `Unknown` or digits and slashes. */
  predicate WellFormed(r: FeeRow) {
    && KnownShape(r.key)
    && (r.date == "Unknown" || (|r.date| > 0 && AllIn(r.date, DigitSlash)))
    && Lacks(r.date, '(')
  }

  /** The report's fee line is the tagged line the pattern is written for. */
  lemma FeeLineShape(grp: Group<TxRecord>)
    ensures FeeLine(grp) == RowLine(RowOf(grp))
  {
    assert "(" + "wd" + ") pg " == "(wd) pg ";
  }

  /** A readable row's line is read back as one match with its own fields. */
  lemma ReadRow(s: string, p: nat, r: FeeRow)
    requires WellFormed(r) && RowReadable(r)
    requires OccursAt(s, RowLine(r), p)
    ensures FindAll(s, p) == RowRead(r) + FindAll(s, p + |RowLine(r)|)
  {
    var w, f := NatToString(Rupees(r.fee)), TwoDigits(Paise(r.fee));
    Fixed2Chars(r.fee);
    DigitsIn(w, Digit);
    DigitsIn(f, Digit);
    ScanLine(s, p, "wd", r.key, r.date, w, f);
  }

  /** The line of a row that is not readable yields no match, and no match
      starts inside it. */
  lemma SkipRow(s: string, p: nat, r: FeeRow)
    requires WellFormed(r) && !RowReadable(r)
    requires OccursAt(s, RowLine(r), p)
    ensures FindAll(s, p) == FindAll(s, p + |RowLine(r)|)
  {
    Fixed2Chars(r.fee);
    SkipFields(s, p, RowLine(r), r.key, r.date, Fixed2(r.fee), r.fee);
  }

  lemma SkipFields(s: string, p: nat, line: string, k: string, date: string, amount: string, c: Cents)
    requires KnownShape(k) && !(PlainKey(k) && date != "Unknown" && c >= 0)
    requires (date == "Unknown" || (|date| > 0 && AllIn(date, DigitSlash))) && Lacks(date, '(')
    requires |amount| > 0 && (c < 0 ==> amount[0] == '-') && Lacks(amount, '(')
    requires line == Line("wd", k, date, amount) && OccursAt(s, line, p)
    ensures FindAll(s, p) == FindAll(s, p + |line|)
  {
    UnreadFails(s, p, k, date, amount, c);
    LineRestNoParen("wd", k, date, amount);
    SkipLine(s, p, line);
  }

  lemma UnreadFails(s: string, p: nat, k: string, date: string, amount: string, c: Cents)
    requires KnownShape(k) && !(PlainKey(k) && date != "Unknown" && c >= 0)
    requires date == "Unknown" || (|date| > 0 && AllIn(date, DigitSlash))
    requires |amount| > 0 && (c < 0 ==> amount[0] == '-')
    requires OccursAt(s, Line("wd", k, date, amount), p)
    ensures MatchAt(s, p) == None
  {
    if PlainKey(k) {
      if date == "Unknown" {
        DateFails(s, p, "wd", k, date, amount);
      } else {
        AmountFails(s, p, "wd", k, date, amount);
      }
    } else {
      SpacedLineFails(s, p, k, date, amount);
    }
  }

  lemma SpacedLineFails(s: string, p: nat, k: string, date: string, amount: string)
    requires SpacedKey(k)
    requires OccursAt(s, Line("wd", k, date, amount), p)
    ensures MatchAt(s, p) == None
  {
    var i := Span(k, 0, Alnum);
    var a, b := k[..i], k[i + 1..];
    assert k == a + " " + b;
    SpacedGatewayFails(s, p, "wd", a, b, date, amount);
  }

  /** One fee line contributes exactly `RowRead` of its row. */
  lemma ScanRow(s: string, p: nat, r: FeeRow)
    requires WellFormed(r)
    requires OccursAt(s, RowLine(r), p)
    ensures FindAll(s, p) == RowRead(r) + FindAll(s, p + |RowLine(r)|)
  {
    if RowReadable(r) {
      ReadRow(s, p, r);
    } else {
      SkipRow(s, p, r);
    }
  }

  /** Every occurrence of `line` in `s` contributes `ms` to `findall`, and
      `findall` then carries on after it. */
  predicate Reads(s: string, line: string, ms: seq<FeeMatch>) {
    forall q {:trigger OccursAt(s, line, q)} | 0 <= q <= |s| :: OccursAt(s, line, q) ==> FindAll(s, q) == ms + FindAll(s, q + |line|)
  }

  lemma RowLineReads(s: string, r: FeeRow)
    requires WellFormed(r)
    ensures Reads(s, RowLine(r), RowRead(r))
  {
    forall q | 0 <= q <= |s| && OccursAt(s, RowLine(r), q)
      ensures FindAll(s, q) == RowRead(r) + FindAll(s, q + |RowLine(r)|)
    {
      ScanRow(s, q, r);
    }
  }

  // ---- the whole section ----

  /** `findall` from position `q`, as a total function of `q`. */
  function Scanner(s: string): nat -> seq<FeeMatch> {
    (q: nat) => if q <= |s| then FindAll(s, q) else []
  }

  /** Every occurrence of `line` in `s` moves the scan `f` past it and
      contributes `ms`: `Reads` for an abstract scan. */
  predicate Steps<M(==)>(s: string, f: nat -> seq<M>, line: string, ms: seq<M>) {
    forall q {:trigger OccursAt(s, line, q)} | 0 <= q <= |s| :: OccursAt(s, line, q) ==> f(q) == ms + f(q + |line|)
  }

  lemma ReadsSteps(s: string, line: string, ms: seq<FeeMatch>)
    requires Reads(s, line, ms)
    ensures Steps(s, Scanner(s), line, ms)
  {
    forall q | 0 <= q <= |s| && OccursAt(s, line, q) ensures Scanner(s)(q) == ms + Scanner(s)(q + |line|) {
      assert FindAll(s, q) == ms + FindAll(s, q + |line|);
    }
  }

  /** Lines laid end to end from `p` contribute what each one reads, in order. */
  lemma ScanLines(s: string, p: nat, lines: seq<string>, found: seq<seq<FeeMatch>>)
    requires |lines| == |found|
    requires forall i :: 0 <= i < |lines| ==> Reads(s, lines[i], found[i])
    requires OccursAt(s, Concat(lines), p)
    ensures FindAll(s, p) == Concat(found) + FindAll(s, p + |Concat(lines)|)
  {
    AllSteps(s, lines, found);
    ScanBy(s, Scanner(s), p, lines, found);
    var e := p + |Concat(lines)|;
    assert e <= |s| && Scanner(s)(p) == FindAll(s, p) && Scanner(s)(e) == FindAll(s, e);
  }

  lemma AllSteps(s: string, lines: seq<string>, found: seq<seq<FeeMatch>>)
    requires |lines| == |found|
    requires forall i :: 0 <= i < |lines| ==> Reads(s, lines[i], found[i])
    ensures forall i :: 0 <= i < |lines| ==> Steps(s, Scanner(s), lines[i], found[i])
  {
    forall i | 0 <= i < |lines| ensures Steps(s, Scanner(s), lines[i], found[i]) {
      ReadsSteps(s, lines[i], found[i]);
    }
  }

  lemma {:induction false} ScanBy<M>(s: string, f: nat -> seq<M>, p: nat, lines: seq<string>, found: seq<seq<M>>)
    requires |lines| == |found|
    requires forall i :: 0 <= i < |lines| ==> Steps(s, f, lines[i], found[i])
    requires OccursAt(s, Concat(lines), p)
    ensures f(p) == Concat(found) + f(p + |Concat(lines)|)
    decreases |lines|
  {
    if lines != [] {
      var line, rest := lines[0], Concat(lines[1..]);
      TextAtSplit(s, p, line, rest);
      assert Steps(s, f, lines[0], found[0]);
      forall i | 0 <= i < |lines[1..]| ensures Steps(s, f, lines[1..][i], found[1..][i]) {
        assert lines[1..][i] == lines[i + 1] && found[1..][i] == found[i + 1];
      }
      ScanBy(s, f, p + |line|, lines[1..], found[1..]);
      assert Concat(found) == found[0] + Concat(found[1..]);
    }
  }

  /** A text made of lines, scanned from its start. */
  lemma ScanText(s: string, lines: seq<string>, found: seq<seq<FeeMatch>>)
    requires OccursAt(s, Concat(lines), 0) && |s| == |Concat(lines)| && |lines| == |found|
    requires forall i :: 0 <= i < |lines| ==> Reads(s, lines[i], found[i])
    ensures FindAll(s, 0) == Concat(found)
  {
    ScanLines(s, 0, lines, found);
    ScanEnd(s, Concat(found));
  }

  lemma WholeText(s: string)
    ensures OccursAt(s, s, 0)
  {
    assert s[0..|s|] == s;
  }

  lemma ScanEnd(s: string, a: seq<FeeMatch>)
    requires FindAll(s, 0) == a + FindAll(s, |s|)
    ensures FindAll(s, 0) == a
  {
  }

  /** `findall` over the printed rows reads back exactly the readable ones. */
  lemma RowsReadBack(s: string, rows: seq<FeeRow>)
    requires OccursAt(s, Concat(RowLines(rows)), 0) && |s| == |Concat(RowLines(rows))|
    requires forall i :: 0 <= i < |rows| ==> WellFormed(rows[i])
    ensures FindAll(s, 0) == Concat(RowReads(rows))
  {
    var lines, found := RowLines(rows), RowReads(rows);
    forall i | 0 <= i < |rows| ensures Reads(s, lines[i], found[i]) {
      RowLineReads(s, rows[i]);
    }
    ScanText(s, lines, found);
  }

  /** The fee lines of `gs`: the first group's line, then the others'. */
  lemma FeeLinesCons(gs: seq<Group<TxRecord>>)
    requires gs != []
    ensures Concat(FeeLines(gs)) == FeeLine(gs[0]) + Concat(FeeLines(gs[1..]))
  {
    var ls := FeeLines(gs);
    assert ls[1..] == FeeLines(gs[1..]);
  }

  /** The report's fee lines are the lines of its rows. */
  lemma FeeLinesText(gs: seq<Group<TxRecord>>)
    ensures FeeLines(gs) == RowLines(Rows(gs))
  {
    forall i | 0 <= i < |gs| ensures FeeLines(gs)[i] == RowLines(Rows(gs))[i] {
      FeeLineShape(gs[i]);
    }
  }

  /** Reading the rows is reading the groups. */
  lemma {:induction false} ReadBackRows(gs: seq<Group<TxRecord>>)
    ensures ReadBack(gs) == Concat(RowReads(Rows(gs)))
    decreases |gs|
  {
    if gs != [] {
      assert RowReads(Rows(gs))[1..] == RowReads(Rows(gs[1..]));
      ReadBackRows(gs[1..]);
    }
  }

  lemma RowsWellFormed(gs: seq<Group<TxRecord>>)
    requires forall i :: 0 <= i < |gs| ==> KnownShape(gs[i].key)
    ensures forall i :: 0 <= i < |gs| ==> WellFormed(Rows(gs)[i])
  {
    forall i | 0 <= i < |gs| ensures WellFormed(Rows(gs)[i]) {
      FeeDateChars(gs[i].items);
    }
  }

  lemma FeeLinesStart(gs: seq<Group<TxRecord>>)
    ensures var x := Concat(FeeLines(gs)); x == [] || x[0] == '('
  {
    if gs != [] {
      FeeLinesCons(gs);
    }
  }

  /** The grand total line is the marker followed by text without a line
      break, then a blank line. */
  lemma FooterShape(gs: seq<Group<TxRecord>>) returns (x: string)
    ensures GrandFooter(gs) == "\n" + Marker + x + "\n\n" && Lacks(x, '\n')
  {
    var t := Thousands(Sum(GroupTotals(gs)));
    var n := NatToString(|Flat(gs)|);
    ThousandsOneLine(Sum(GroupTotals(gs)));
    DigitsIn(n, Digit);
    x := FooterRest(t, n);
  }

  /** The grand total line after its marker. */
  lemma FooterRest(t: string, n: string) returns (x: string)
    requires Lacks(t, '\n') && Lacks(n, '\n')
    ensures "\n==== GRAND TOTAL for All Gateways: Rs " + t + " | Total Records: " + n + " ====\n\n"
      == "\n" + Marker + x + "\n\n"
    ensures Lacks(x, '\n')
  {
    var a := " for All Gateways: Rs ";
    var b := " | Total Records: ";
    var c := " ====";
    x := a + t + b + n + c;
    LacksConcat(a, t, '\n');
    LacksConcat(a + t, b, '\n');
    LacksConcat(a + t + b, n, '\n');
    LacksConcat(a + t + b + n, c, '\n');
    FooterWords();
    Regroup("\n" + Marker, a, t, b, n, c, "\n\n");
  }

  lemma FooterWords()
    ensures "\n==== GRAND TOTAL for All Gateways: Rs " == ("\n" + Marker) + " for All Gateways: Rs "
    ensures " ====\n\n" == " ====" + "\n\n"
  {
  }

  lemma Regroup<T>(h: seq<T>, a: seq<T>, t: seq<T>, b: seq<T>, n: seq<T>, c: seq<T>, z: seq<T>)
    ensures (h + a) + t + b + n + (c + z) == h + (a + t + b + n + c) + z
  {
  }

  /** The tax tool cuts the report after its grand total line and gets back
      exactly the fee lines, provided no record text repeats the grand total
      marker. */
  lemma ReportSection(gs: seq<Group<TxRecord>>)
    requires !Contains(Concat(Blocks(gs)), Marker)
    ensures Section(ReportText(gs)) == Some(Concat(FeeLines(gs)))
  {
    var x := FooterShape(gs);
    FeeLinesStart(gs);
    SectionAfter(Concat(Blocks(gs)), x, Concat(FeeLines(gs)));
  }

  /** The round trip: the matches the tax tool finds in the section it cuts
      out of the report are, in order, the fee lines of the groups with a
      one-word name, a known date and a fee that is not negative. */
  lemma {:induction false} ReportReadBack(gs: seq<Group<TxRecord>>)
    requires forall i :: 0 <= i < |gs| ==> KnownShape(gs[i].key)
    requires !Contains(Concat(Blocks(gs)), Marker)
    ensures Section(ReportText(gs)).Some?
    ensures FindAll(Section(ReportText(gs)).value, 0) == ReadBack(gs)
  {
    ReportSection(gs);
    FeeLinesText(gs);
    ReadBackRows(gs);
    RowsWellFormed(gs);
    WholeText(Concat(FeeLines(gs)));
    RowsReadBack(Concat(FeeLines(gs)), Rows(gs));
  }

  /** Each match read back carries the group's name, a date that parses to
      the day of the group's first record, and an amount that parses to the
      group's fee. */
  lemma ReadOfFields(grp: Group<TxRecord>)
    requires Readable(grp)
    ensures grp.items != [] && ParseTimestamp(grp.items[0].time).Some?
    ensures var m := ReadOf(grp)[0];
      m.tag == "wd" && m.gateway == grp.key
      && ParseDMY(m.date) == Some(ParseTimestamp(grp.items[0].time).value.date)
      && ParseDecimal(m.amount) == Some(GroupFee(grp))
  {
    var t := ParseTimestamp(grp.items[0].time).value;
    ParseFormatDMY(t.date);
    ParseFixed2(GroupFee(grp));
  }

  /** `ReadBack` keeps a match for each readable group and nothing else. */
  lemma {:induction false} ReadBackCount(gs: seq<Group<TxRecord>>)
    ensures |ReadBack(gs)| <= |gs|
    ensures |ReadBack(gs)| == |gs| <==> forall i :: 0 <= i < |gs| ==> Readable(gs[i])
    decreases |gs|
  {
    if gs != [] {
      ReadBackCount(gs[1..]);
      ReadOfSize(gs[0]);
      AllCons(gs, Readable);
    }
  }

  lemma ReadOfSize(grp: Group<TxRecord>)
    ensures |ReadOf(grp)| == if Readable(grp) then 1 else 0
  {
  }

}
