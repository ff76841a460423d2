/** The fee lines the report writes, read back by the fee-line pattern: the
    pattern run piece by piece over text whose shape is known. */
module FeeScan {
  import opened Options
  import opened Strings
  import opened FeeMatcher

  /** The head of the fee pattern, `\((\w+)\)\s+pg\s+`, piece by piece. */
  predicate HeadShape(ps: seq<Piece>) {
    && |ps| == 28
    && ps[0] == Char('(') && ps[1] == Group(Word) && ps[2] == Char(')') && ps[3] == Plus(Space)
    && ps[4] == Char('p') && ps[5] == Char('g') && ps[6] == Plus(Space)
  }

  /** `([A-Z0-9a-z]+)\s+` */
  predicate GatewayShape(ps: seq<Piece>) {
    |ps| == 28 && ps[7] == Group(Alnum) && ps[8] == Plus(Space)
  }

  /** `([\d/]+)` */
  predicate DateShape(ps: seq<Piece>) {
    |ps| == 28 && ps[9] == Group(DigitSlash)
  }

  /** `\s+\|\s+Total Fee:\s+Rs\s+` */
  predicate LabelShape(ps: seq<Piece>) {
    && |ps| == 28
    && ps[10] == Plus(Space) && ps[11] == Char('|') && ps[12] == Plus(Space)
    && ps[13] == Char('T') && ps[14] == Char('o') && ps[15] == Char('t') && ps[16] == Char('a')
    && ps[17] == Char('l') && ps[18] == Char(' ') && ps[19] == Char('F') && ps[20] == Char('e')
    && ps[21] == Char('e') && ps[22] == Char(':')
    && ps[23] == Plus(Space) && ps[24] == Char('R') && ps[25] == Char('s') && ps[26] == Plus(Space)
  }

  /** `([\d,]+\.?\d*)` */
  predicate AmountShape(ps: seq<Piece>) {
    |ps| == 28 && ps[27] == Decimal
  }

  /** The fee-line pattern, piece by piece. */
  predicate FeeShape(ps: seq<Piece>) {
    HeadShape(ps) && GatewayShape(ps) && DateShape(ps) && LabelShape(ps) && AmountShape(ps)
  }

  lemma FeePatternShape()
    ensures FeeShape(FeePattern)
  {
    PatternFront();
    PatternLabel();
  }

  lemma PatternFront()
    ensures HeadShape(FeePattern) && GatewayShape(FeePattern) && DateShape(FeePattern) && AmountShape(FeePattern)
  {
  }

  lemma PatternLabel()
    ensures LabelShape(FeePattern)
  {
  }

  /** A fee line as the report writes it. */
  function Line(tag: string, g: string, date: string, amount: string): string {
    "(" + tag + ") pg " + g + " " + date + " | Total Fee: Rs " + amount + "\n"
  }

  // ---- reading text at a position ----

  lemma TextAtSub(s: string, i: nat, w: string, a: nat, b: nat)
    requires OccursAt(s, w, i) && a <= b <= |w|
    ensures OccursAt(s, w[a..b], i + a)
  {
    forall x | 0 <= x < b - a
      ensures s[i + a..i + b][x] == w[a..b][x]
    {
      assert s[i + a + x] == s[i..i + |w|][a + x];
    }
    assert s[i + a..i + b] == w[a..b];
  }

  /** The characters of `w` at `i` are all of class `k`. */
  lemma TextAtClass(s: string, i: nat, w: string, k: CharClass)
    requires OccursAt(s, w, i) && AllIn(w, k)
    ensures forall x :: i <= x < i + |w| ==> InClass(s[x], k)
  {
    forall x | i <= x < i + |w| ensures InClass(s[x], k) {
      TextAtChar(s, i, w, x - i);
    }
  }

  /** The stretches of a fee line at `p`. */
  lemma LineParts(s: string, p: nat, tag: string, g: string, date: string, amount: string)
      returns (c: nat, m: nat, d: nat, l: nat, q: nat, e: nat)
    requires OccursAt(s, Line(tag, g, date, amount), p)
    ensures c == p + |tag| + 1 && m == c + 5 && d == m + |g| + 1 && l == d + |date| && q == l + 17
    ensures e == q + |amount| && e == p + |Line(tag, g, date, amount)| - 1
    ensures OccursAt(s, "(", p) && OccursAt(s, tag, p + 1) && OccursAt(s, ") pg ", c)
    ensures OccursAt(s, g, m) && OccursAt(s, " ", d - 1) && OccursAt(s, date, d)
    ensures OccursAt(s, " | Total Fee: Rs ", l) && OccursAt(s, amount, q) && OccursAt(s, "\n", e)
  {
    c := p + |tag| + 1;
    m := c + 5;
    d := m + |g| + 1;
    l := d + |date|;
    q := l + 17;
    e := q + |amount|;
    var front := "(" + tag + ") pg " + g + " ";
    LineBack(s, p, front, date, amount);
    LineFront(s, p, tag, g);
  }

  /** `<front><date> | Total Fee: Rs <amount>\n` in its stretches. */
  lemma LineBack(s: string, p: nat, front: string, date: string, amount: string)
    requires OccursAt(s, front + date + " | Total Fee: Rs " + amount + "\n", p)
    ensures OccursAt(s, front, p) && OccursAt(s, date, p + |front|)
    ensures OccursAt(s, " | Total Fee: Rs ", p + |front| + |date|)
    ensures OccursAt(s, amount, p + |front| + |date| + 17)
    ensures OccursAt(s, "\n", p + |front| + |date| + 17 + |amount|)
  {
    var a5 := front + date;
    var a6 := a5 + " | Total Fee: Rs ";
    var a7 := a6 + amount;
    TextAtSplit(s, p, a7, "\n");
    TextAtSplit(s, p, a6, amount);
    TextAtSplit(s, p, a5, " | Total Fee: Rs ");
    TextAtSplit(s, p, front, date);
  }

  /** `(<tag>) pg <gateway> ` in its stretches. */
  lemma LineFront(s: string, p: nat, tag: string, g: string)
    requires OccursAt(s, "(" + tag + ") pg " + g + " ", p)
    ensures OccursAt(s, "(", p) && OccursAt(s, tag, p + 1) && OccursAt(s, ") pg ", p + |tag| + 1)
    ensures OccursAt(s, g, p + |tag| + 6) && OccursAt(s, " ", p + |tag| + 6 + |g|)
  {
    var a1 := "(" + tag;
    var a2 := a1 + ") pg ";
    var a3 := a2 + g;
    TextAtSplit(s, p, a3, " ");
    TextAtSplit(s, p, a2, g);
    TextAtSplit(s, p, a1, ") pg ");
    TextAtSplit(s, p, "(", tag);
  }

  // ---- a fee line, stretch by stretch ----

  /** `\s+` over one space followed by something else. */
  lemma OneSpace(ps: seq<Piece>, j: nat, s: string, i: nat, acc: seq<string>)
    requires j < |ps| && ps[j] == Plus(Space)
    requires OccursAt(s, " ", i) && i + 1 < |s| && !IsSpace(s[i + 1])
    ensures Run(ps, j, s, i, acc) == Run(ps, j + 1, s, i + 1, acc)
  {
    TextAtChar(s, i, " ", 0);
    PlusStep(ps, j, s, i, i + 1, acc);
  }

  /** A captured group over `w` followed by a character outside its class. */
  lemma GroupText(ps: seq<Piece>, j: nat, s: string, i: nat, w: string, acc: seq<string>)
    requires j < |ps| && ps[j].Group?
    requires OccursAt(s, w, i) && |w| > 0 && AllIn(w, ps[j].k)
    requires i + |w| < |s| && !InClass(s[i + |w|], ps[j].k)
    ensures Run(ps, j, s, i, acc) == Run(ps, j + 1, s, i + |w|, acc + [w])
  {
    TextAtClass(s, i, w, ps[j].k);
    GroupStep(ps, j, s, i, i + |w|, acc);
  }

  /** `\((\w+)\)` over `(<tag>)`, from `p` to `e`. */
  lemma RunTag(ps: seq<Piece>, s: string, p: nat, e: nat, tag: string, acc: seq<string>)
    requires HeadShape(ps)
    requires |tag| > 0 && AllIn(tag, Word) && e == p + |tag| + 2
    requires OccursAt(s, "(", p) && OccursAt(s, tag, p + 1) && OccursAt(s, ")", e - 1)
    ensures Run(ps, 0, s, p, acc) == Run(ps, 3, s, e, acc + [tag])
  {
    TextAtChar(s, p, "(", 0);
    TextAtChar(s, e - 1, ")", 0);
    CharStep(ps, 0, s, p, acc);
    GroupText(ps, 1, s, p + 1, tag, acc);
    CharStep(ps, 2, s, e - 1, acc + [tag]);
  }

  /** `\s+pg\s+` over ` pg `. */
  lemma RunPg(ps: seq<Piece>, s: string, q: nat, e: nat, acc: seq<string>)
    requires HeadShape(ps)
    requires OccursAt(s, " pg ", q) && e == q + 4 && e < |s| && !IsSpace(s[e])
    ensures Run(ps, 3, s, q, acc) == Run(ps, 7, s, e, acc)
  {
    var w := " pg ";
    TextAtChar(s, q, w, 1);
    TextAtChar(s, q, w, 2);
    TextAtSub(s, q, w, 0, 1);
    TextAtSub(s, q, w, 3, 4);
    assert w[0..1] == " " && w[3..4] == " ";
    OneSpace(ps, 3, s, q, acc);
    CharStep(ps, 4, s, q + 1, acc);
    CharStep(ps, 5, s, q + 2, acc);
    OneSpace(ps, 6, s, q + 3, acc);
  }

  /** `([A-Z0-9a-z]+)\s+` over `<gateway> `, from `i` to `e`. */
  lemma RunGateway(ps: seq<Piece>, s: string, i: nat, e: nat, g: string, acc: seq<string>)
    requires GatewayShape(ps)
    requires |g| > 0 && AllIn(g, Alnum) && e == i + |g| + 1
    requires OccursAt(s, g, i) && OccursAt(s, " ", e - 1)
    requires e < |s| && !IsSpace(s[e])
    ensures Run(ps, 7, s, i, acc) == Run(ps, 9, s, e, acc + [g])
  {
    var b, t := i + |g|, acc + [g];
    assert b == e - 1;
    TextAtChar(s, b, " ", 0);
    assert !InClass(s[b], Alnum);
    GroupText(ps, 7, s, i, g, acc);
    OneSpace(ps, 8, s, b, t);
  }

  /** `\s+\|\s+` over ` | `. */
  lemma RunBar(ps: seq<Piece>, s: string, i: nat, acc: seq<string>)
    requires |ps| == 28 && ps[10] == Plus(Space) && ps[11] == Char('|') && ps[12] == Plus(Space)
    requires OccursAt(s, " | ", i) && i + 3 < |s| && !IsSpace(s[i + 3])
    ensures Run(ps, 10, s, i, acc) == Run(ps, 13, s, i + 3, acc)
  {
    var w := " | ";
    TextAtChar(s, i, w, 1);
    TextAtSub(s, i, w, 0, 1);
    TextAtSub(s, i, w, 2, 3);
    assert w[0..1] == " " && w[2..3] == " ";
    OneSpace(ps, 10, s, i, acc);
    CharStep(ps, 11, s, i + 1, acc);
    OneSpace(ps, 12, s, i + 2, acc);
  }

  /** `Total Fee:\s+` over `Total Fee: `. */
  lemma RunTotalFee(ps: seq<Piece>, s: string, i: nat, acc: seq<string>)
    requires |ps| == 28 && ps[23] == Plus(Space)
    requires ps[13] == Char('T') && ps[14] == Char('o') && ps[15] == Char('t') && ps[16] == Char('a')
    requires ps[17] == Char('l') && ps[18] == Char(' ') && ps[19] == Char('F') && ps[20] == Char('e')
    requires ps[21] == Char('e') && ps[22] == Char(':')
    requires OccursAt(s, "Total Fee: ", i) && i + 11 < |s| && !IsSpace(s[i + 11])
    ensures Run(ps, 13, s, i, acc) == Run(ps, 24, s, i + 11, acc)
  {
    var w := "Total Fee: ";
    TextAtSub(s, i, w, 0, 10);
    TextAtSub(s, i, w, 10, 11);
    assert w[0..10] == "Total Fee:" && w[10..11] == " ";
    CharsStep(ps, 13, s, i, "Total Fee:", acc);
    OneSpace(ps, 23, s, i + 10, acc);
  }

  /** `Rs\s+` over `Rs `. */
  lemma RunRs(ps: seq<Piece>, s: string, i: nat, acc: seq<string>)
    requires |ps| == 28 && ps[24] == Char('R') && ps[25] == Char('s') && ps[26] == Plus(Space)
    requires OccursAt(s, "Rs ", i) && i + 3 < |s| && !IsSpace(s[i + 3])
    ensures Run(ps, 24, s, i, acc) == Run(ps, 27, s, i + 3, acc)
  {
    var w := "Rs ";
    TextAtChar(s, i, w, 0);
    TextAtChar(s, i, w, 1);
    TextAtSub(s, i, w, 2, 3);
    assert w[2..3] == " ";
    CharStep(ps, 24, s, i, acc);
    CharStep(ps, 25, s, i + 1, acc);
    OneSpace(ps, 26, s, i + 2, acc);
  }

  /** ` | Total Fee: Rs ` in its three stretches. */
  lemma SplitLabel(s: string, i: nat)
    requires OccursAt(s, " | Total Fee: Rs ", i)
    ensures OccursAt(s, " | ", i) && OccursAt(s, "Total Fee: ", i + 3) && OccursAt(s, "Rs ", i + 14)
    ensures !IsSpace(s[i + 3]) && !IsSpace(s[i + 14])
  {
    var w := " | Total Fee: Rs ";
    TextAtChar(s, i, w, 3);
    TextAtChar(s, i, w, 14);
    TextAtSub(s, i, w, 0, 3);
    TextAtSub(s, i, w, 3, 14);
    TextAtSub(s, i, w, 14, 17);
    assert w[0..3] == " | " && w[3..14] == "Total Fee: " && w[14..17] == "Rs ";
  }

  /** `) pg ` in its two stretches. */
  lemma SplitPg(s: string, c: nat)
    requires OccursAt(s, ") pg ", c)
    ensures OccursAt(s, ")", c) && OccursAt(s, " pg ", c + 1)
  {
    TextAtSub(s, c, ") pg ", 0, 1);
    TextAtSub(s, c, ") pg ", 1, 5);
    assert ") pg "[0..1] == ")" && ") pg "[1..5] == " pg ";
  }

  /** `\s+\|\s+Total Fee:\s+Rs\s+` over ` | Total Fee: Rs `, from `i` to `e`. */
  lemma RunLabel(ps: seq<Piece>, s: string, i: nat, j: nat, k: nat, e: nat, acc: seq<string>)
    requires LabelShape(ps) && j == i + 3 && k == j + 11 && e == k + 3
    requires OccursAt(s, " | ", i) && OccursAt(s, "Total Fee: ", j) && OccursAt(s, "Rs ", k)
    requires !IsSpace(s[j]) && !IsSpace(s[k]) && e < |s| && !IsSpace(s[e])
    ensures Run(ps, 10, s, i, acc) == Run(ps, 27, s, e, acc)
  {
    RunBar(ps, s, i, acc);
    RunTotalFee(ps, s, j, acc);
    RunRs(ps, s, k, acc);
  }

  /** `\((\w+)\)\s+pg\s+` over `(<tag>) pg `, from `p` to `e`. */
  lemma RunHead(ps: seq<Piece>, s: string, p: nat, c: nat, e: nat, tag: string, acc: seq<string>)
    requires HeadShape(ps) && |tag| > 0 && AllIn(tag, Word) && c == p + |tag| + 1 && e == c + 5
    requires OccursAt(s, "(", p) && OccursAt(s, tag, p + 1) && OccursAt(s, ")", c) && OccursAt(s, " pg ", c + 1)
    requires e < |s| && !IsSpace(s[e])
    ensures Run(ps, 0, s, p, acc) == Run(ps, 7, s, e, acc + [tag])
  {
    var b, t := c + 1, acc + [tag];
    assert b - 1 == c;
    RunTag(ps, s, p, b, tag, acc);
    RunPg(ps, s, b, e, t);
  }

  /** `\((\w+)\)\s+pg\s+([A-Z0-9a-z]+)\s+` over `(<tag>) pg <gateway> `, from `p` to `e`. */
  lemma RunFront(ps: seq<Piece>, s: string, p: nat, c: nat, m: nat, e: nat, tag: string, g: string, acc: seq<string>)
    requires HeadShape(ps) && GatewayShape(ps) && |tag| > 0 && AllIn(tag, Word) && |g| > 0 && AllIn(g, Alnum)
    requires c == p + |tag| + 1 && m == c + 5 && e == m + |g| + 1
    requires OccursAt(s, "(", p) && OccursAt(s, tag, p + 1) && OccursAt(s, ")", c) && OccursAt(s, " pg ", c + 1)
    requires OccursAt(s, g, m) && OccursAt(s, " ", e - 1)
    requires e < |s| && !IsSpace(s[e])
    ensures Run(ps, 0, s, p, acc) == Run(ps, 9, s, e, acc + [tag] + [g])
  {
    TextAtChar(s, m, g, 0);
    RunHead(ps, s, p, c, m, tag, acc);
    RunGateway(ps, s, m, e, g, acc + [tag]);
  }

  /** `([\d/]+)\s+\|\s+Total Fee:\s+Rs\s+` over `<date> | Total Fee: Rs `, from `i` to `e`. */
  lemma RunDate(ps: seq<Piece>, s: string, i: nat, m: nat, e: nat, date: string, acc: seq<string>)
    requires DateShape(ps) && LabelShape(ps) && |date| > 0 && AllIn(date, DigitSlash)
    requires m == i + |date| && e == m + 17
    requires OccursAt(s, date, i) && OccursAt(s, " | ", m) && OccursAt(s, "Total Fee: ", m + 3) && OccursAt(s, "Rs ", m + 14)
    requires !IsSpace(s[m + 3]) && !IsSpace(s[m + 14]) && e < |s| && !IsSpace(s[e])
    ensures Run(ps, 9, s, i, acc) == Run(ps, 27, s, e, acc + [date])
  {
    TextAtChar(s, m, " | ", 0);
    GroupText(ps, 9, s, i, date, acc);
    RunLabel(ps, s, m, m + 3, m + 14, e, acc + [date]);
  }

  /** `([\d/]+)\s+\|\s+Total Fee:\s+Rs\s+([\d,]+\.?\d*)` over the rest of the line, from `i` to `e`. */
  lemma RunTail(ps: seq<Piece>, s: string, i: nat, l: nat, q: nat, e: nat, date: string, w: string, f: string, acc: seq<string>)
    requires DateShape(ps) && LabelShape(ps) && AmountShape(ps) && |date| > 0 && AllIn(date, DigitSlash)
    requires |w| > 0 && AllIn(w, Digit) && AllIn(f, Digit)
    requires l == i + |date| && q == l + 17 && e == q + |w| + 1 + |f|
    requires OccursAt(s, date, i) && OccursAt(s, " | ", l) && OccursAt(s, "Total Fee: ", l + 3) && OccursAt(s, "Rs ", l + 14)
    requires !IsSpace(s[l + 3]) && !IsSpace(s[l + 14])
    requires OccursAt(s, w + "." + f, q)
    requires e == |s| || !IsDigit(s[e])
    ensures Run(ps, 9, s, i, acc) == Run(ps, 28, s, e, acc + [date] + [w + "." + f])
  {
    var mid := acc + [date];
    AmountFront(s, q, w, f);
    RunDate(ps, s, i, l, q, date, acc);
    DecimalStep(ps, 27, s, q, w, f, mid);
  }

  /** An amount starts with a digit, so not with a space. */
  lemma AmountFront(s: string, q: nat, w: string, f: string)
    requires |w| > 0 && AllIn(w, Digit) && OccursAt(s, w + "." + f, q)
    ensures q < |s| && !IsSpace(s[q])
  {
    TextAtChar(s, q, w + "." + f, 0);
    assert (w + "." + f)[0] == w[0];
  }

  /** The whole pattern over the stretches of a fee line, from `p` to the
      newline at `e`. */
  lemma RunParts(ps: seq<Piece>, s: string, p: nat, c: nat, m: nat, d: nat, l: nat, q: nat, e: nat,
                 tag: string, g: string, date: string, w: string, f: string)
    requires FeeShape(ps)
    requires |tag| > 0 && AllIn(tag, Word) && |g| > 0 && AllIn(g, Alnum) && |date| > 0 && AllIn(date, DigitSlash)
    requires |w| > 0 && AllIn(w, Digit) && AllIn(f, Digit)
    requires c == p + |tag| + 1 && m == c + 5 && d == m + |g| + 1 && l == d + |date| && q == l + 17
    requires e == q + |w| + 1 + |f|
    requires OccursAt(s, "(", p) && OccursAt(s, tag, p + 1) && OccursAt(s, ")", c) && OccursAt(s, " pg ", c + 1)
    requires OccursAt(s, g, m) && OccursAt(s, " ", d - 1) && OccursAt(s, date, d)
    requires OccursAt(s, " | ", l) && OccursAt(s, "Total Fee: ", l + 3) && OccursAt(s, "Rs ", l + 14)
    requires !IsSpace(s[l + 3]) && !IsSpace(s[l + 14])
    requires OccursAt(s, w + "." + f, q) && e < |s| && s[e] == '\n'
    ensures Run(ps, 0, s, p, []) == Some(([tag, g, date, w + "." + f], e))
  {
    TextAtChar(s, d, date, 0);
    var none: seq<string> := [];
    var front := none + [tag] + [g];
    RunFront(ps, s, p, c, m, d, tag, g, none);
    RunTail(ps, s, d, l, q, e, date, w, f, front);
    assert front + [date] + [w + "." + f] == [tag, g, date, w + "." + f];
  }

  /** The positions and stretches of a fee line at `p`. */
  lemma LineLayout(s: string, p: nat, tag: string, g: string, date: string, amount: string)
      returns (c: nat, m: nat, d: nat, l: nat, q: nat, e: nat)
    requires OccursAt(s, Line(tag, g, date, amount), p)
    ensures c == p + |tag| + 1 && m == c + 5 && d == m + |g| + 1 && l == d + |date| && q == l + 17
    ensures e == q + |amount| && e == p + |Line(tag, g, date, amount)| - 1
    ensures OccursAt(s, "(", p) && OccursAt(s, tag, p + 1) && OccursAt(s, ")", c) && OccursAt(s, " pg ", c + 1)
    ensures OccursAt(s, g, m) && OccursAt(s, " ", d - 1) && OccursAt(s, date, d)
    ensures OccursAt(s, " | ", l) && OccursAt(s, "Total Fee: ", l + 3) && OccursAt(s, "Rs ", l + 14)
    ensures !IsSpace(s[l + 3]) && !IsSpace(s[l + 14])
    ensures OccursAt(s, amount, q) && e < |s| && s[e] == '\n'
  {
    c, m, d, l, q, e := LineParts(s, p, tag, g, date, amount);
    TextAtChar(s, e, "\n", 0);
    SplitPg(s, c);
    SplitLabel(s, l);
  }

  // ---- what `findall` makes of a fee line ----

  /** A fee line at `p` is one match, ending at its newline. */
  lemma MatchLine(s: string, p: nat, tag: string, g: string, date: string, w: string, f: string) returns (e: nat)
    requires |tag| > 0 && AllIn(tag, Word) && |g| > 0 && AllIn(g, Alnum) && |date| > 0 && AllIn(date, DigitSlash)
    requires |w| > 0 && AllIn(w, Digit) && AllIn(f, Digit)
    requires OccursAt(s, Line(tag, g, date, w + "." + f), p)
    ensures e + 1 == p + |Line(tag, g, date, w + "." + f)| && e < |s| && s[e] == '\n'
    ensures MatchAt(s, p) == Some((FeeMatch(tag, g, date, w + "." + f), e))
  {
    var c, m, d, l, q;
    c, m, d, l, q, e := LineLayout(s, p, tag, g, date, w + "." + f);
    FeePatternShape();
    RunParts(FeePattern, s, p, c, m, d, l, q, e, tag, g, date, w, f);
    TextAtChar(s, p, "(", 0);
  }

  /** `findall` over a fee line yields its four fields and carries on after it. */
  lemma ScanLine(s: string, p: nat, tag: string, g: string, date: string, w: string, f: string)
    requires |tag| > 0 && AllIn(tag, Word) && |g| > 0 && AllIn(g, Alnum) && |date| > 0 && AllIn(date, DigitSlash)
    requires |w| > 0 && AllIn(w, Digit) && AllIn(f, Digit)
    requires OccursAt(s, Line(tag, g, date, w + "." + f), p)
    ensures p + |Line(tag, g, date, w + "." + f)| <= |s|
    ensures FindAll(s, p) == [FeeMatch(tag, g, date, w + "." + f)] + FindAll(s, p + |Line(tag, g, date, w + "." + f)|)
  {
    var e := MatchLine(s, p, tag, g, date, w, f);
    FindAllMatch(s, p, FeeMatch(tag, g, date, w + "." + f), e);
  }

  // ---- fee lines the pattern does not read ----

  /** After its first character a fee line has no opening parenthesis when its
      fields have none. */
  lemma LineRestNoParen(tag: string, g: string, date: string, amount: string)
    requires Lacks(tag, '(') && Lacks(g, '(') && Lacks(date, '(') && Lacks(amount, '(')
    ensures var line := Line(tag, g, date, amount);
      forall x :: 1 <= x < |line| ==> line[x] != '('
  {
    var r1 := tag + ") pg ";
    LacksConcat(tag, ") pg ", '(');
    LacksConcat(r1, g, '(');
    LacksConcat(r1 + g, " ", '(');
    LacksConcat(r1 + g + " ", date, '(');
    LacksConcat(r1 + g + " " + date, " | Total Fee: Rs ", '(');
    LacksConcat(r1 + g + " " + date + " | Total Fee: Rs ", amount, '(');
    var rest := r1 + g + " " + date + " | Total Fee: Rs " + amount;
    LacksConcat(rest, "\n", '(');
    assert Line(tag, g, date, amount) == "(" + (rest + "\n");
  }

  /** A fee line where no match starts, and with no other opening parenthesis,
      contributes nothing to `findall`. */
  lemma SkipLine(s: string, p: nat, line: string)
    requires OccursAt(s, line, p) && line != [] && MatchAt(s, p) == None
    requires forall x :: 1 <= x < |line| ==> line[x] != '('
    ensures FindAll(s, p) == FindAll(s, p + |line|)
  {
    NoParenAt(s, p, line);
    SkipStretch(s, p, p + |line|);
  }

  lemma NoParenAt(s: string, p: nat, line: string)
    requires OccursAt(s, line, p)
    requires forall x :: 1 <= x < |line| ==> line[x] != '('
    ensures forall x :: p + 1 <= x < p + |line| ==> s[x] != '('
  {
    forall x | p + 1 <= x < p + |line| ensures s[x] != '(' {
      TextAtChar(s, p, line, x - p);
    }
  }

  lemma SkipStretch(s: string, p: nat, n: nat)
    requires p < n <= |s| && MatchAt(s, p) == None
    requires forall x :: p + 1 <= x < n ==> s[x] != '('
    ensures FindAll(s, p) == FindAll(s, n)
  {
    SkipNone(s, p);
    SkipNoParen(s, p + 1, n);
  }

  /** The pattern reads the head and the gateway up to `d` and then fails on
      a date that does not start with a digit or `/`. */
  lemma FrontThenFails(ps: seq<Piece>, s: string, p: nat, c: nat, m: nat, d: nat, tag: string, g: string)
    requires HeadShape(ps) && GatewayShape(ps) && DateShape(ps)
    requires |tag| > 0 && AllIn(tag, Word) && |g| > 0 && AllIn(g, Alnum)
    requires c == p + |tag| + 1 && m == c + 5 && d == m + |g| + 1
    requires OccursAt(s, "(", p) && OccursAt(s, tag, p + 1) && OccursAt(s, ")", c) && OccursAt(s, " pg ", c + 1)
    requires OccursAt(s, g, m) && OccursAt(s, " ", d - 1)
    requires d < |s| && !IsSpace(s[d]) && !InClass(s[d], DigitSlash)
    ensures Run(ps, 0, s, p, []) == None
  {
    var none: seq<string> := [];
    RunFront(ps, s, p, c, m, d, tag, g, none);
    SpanFails(ps, 9, s, d, none + [tag] + [g]);
  }

  /** The pattern reads up to the amount at `q` and then fails on one that
      does not start with a digit or a comma. */
  lemma TailThenFails(ps: seq<Piece>, s: string, d: nat, l: nat, q: nat, date: string, acc: seq<string>)
    requires DateShape(ps) && LabelShape(ps) && AmountShape(ps)
    requires |date| > 0 && AllIn(date, DigitSlash) && l == d + |date| && q == l + 17
    requires OccursAt(s, date, d) && OccursAt(s, " | ", l) && OccursAt(s, "Total Fee: ", l + 3) && OccursAt(s, "Rs ", l + 14)
    requires !IsSpace(s[l + 3]) && !IsSpace(s[l + 14])
    requires q < |s| && !IsSpace(s[q]) && !InClass(s[q], DigitComma)
    ensures Run(ps, 9, s, d, acc) == None
  {
    RunDate(ps, s, d, l, q, date, acc);
    DecimalFails(ps, 27, s, q, acc + [date]);
  }

  /** A fee line whose date does not start with a digit or `/` (the report's
      `Unknown`) is not a match. */
  lemma DateFails(s: string, p: nat, tag: string, g: string, date: string, amount: string)
    requires |tag| > 0 && AllIn(tag, Word) && |g| > 0 && AllIn(g, Alnum)
    requires |date| > 0 && !InClass(date[0], DigitSlash) && !IsSpace(date[0])
    requires OccursAt(s, Line(tag, g, date, amount), p)
    ensures MatchAt(s, p) == None
  {
    var c, m, d, l, q, e := LineLayout(s, p, tag, g, date, amount);
    TextAtChar(s, d, date, 0);
    FeePatternShape();
    FrontThenFails(FeePattern, s, p, c, m, d, tag, g);
  }

  /** A fee line whose amount starts with neither a digit nor a comma (a
      negative fee's minus sign) is not a match. */
  lemma AmountFails(s: string, p: nat, tag: string, g: string, date: string, amount: string)
    requires |tag| > 0 && AllIn(tag, Word) && |g| > 0 && AllIn(g, Alnum) && |date| > 0 && AllIn(date, DigitSlash)
    requires |amount| > 0 && !InClass(amount[0], DigitComma) && !IsSpace(amount[0])
    requires OccursAt(s, Line(tag, g, date, amount), p)
    ensures MatchAt(s, p) == None
  {
    var c, m, d, l, q, e := LineLayout(s, p, tag, g, date, amount);
    TextAtChar(s, d, date, 0);
    TextAtChar(s, q, amount, 0);
    FeePatternShape();
    var none: seq<string> := [];
    RunFront(FeePattern, s, p, c, m, d, tag, g, none);
    TailThenFails(FeePattern, s, d, l, q, date, none + [tag] + [g]);
  }

  lemma SpacedName(s: string, m: nat, a: string, b: string)
    requires OccursAt(s, a + " " + b, m) && |b| > 0
    ensures OccursAt(s, a, m) && OccursAt(s, " ", m + |a|) && m + |a| + 1 < |s| && s[m + |a| + 1] == b[0]
  {
    TextAtSplit(s, m, a + " ", b);
    TextAtSplit(s, m, a, " ");
    TextAtChar(s, m + |a| + 1, b, 0);
  }

  /** A gateway name with a space followed by a letter (`MOHAMMED AMEER ABBAS`)
      is read as far as its first word, and the pattern then fails. */
  lemma SpacedGatewayFails(s: string, p: nat, tag: string, a: string, b: string, date: string, amount: string)
    requires |tag| > 0 && AllIn(tag, Word) && |a| > 0 && AllIn(a, Alnum) && |b| > 0 && IsLetter(b[0])
    requires OccursAt(s, Line(tag, a + " " + b, date, amount), p)
    ensures MatchAt(s, p) == None
  {
    var c, m, d, l, q, e := LineLayout(s, p, tag, a + " " + b, date, amount);
    SpacedName(s, m, a, b);
    FeePatternShape();
    FrontThenFails(FeePattern, s, p, c, m, m + |a| + 1, tag, a);
  }
}
