/** The reader side of the report grammar: locating the text after the
    `==== GRAND TOTAL` marker (the regex `==== GRAND TOTAL.*?\n+(.*)` with
    DOTALL) and `re.findall` of the fee-line pattern
    `\((\w+)\)\s+pg\s+([A-Z0-9a-z]+)\s+([\d/]+)\s+\|\s+Total Fee:\s+Rs\s+([\d,]+\.?\d*)`.
    Every repetition in that pattern is followed by a character its class
    excludes, so backtracking never changes the outcome and each class can be
    read as a longest run. Positions are absolute indices into one text. The
    same piece-by-piece engine runs the fixed stretches of the player-line
    pattern, whose letters are compared without case. */
module FeeMatcher {
  import opened Options
  import opened Strings
  import opened Seqs

  /** The four captures: tag, gateway, date text, amount text. */
  datatype FeeMatch = FeeMatch(tag: string, gateway: string, date: string, amount: string)

  /** The character classes the pattern repeats: `\s`, `\w`, `[A-Z0-9a-z]`,
      `[\d/]`, `[\d,]` and `\d` (ASCII letters and digits). */
  datatype CharClass = Space | Word | Alnum | DigitSlash | DigitComma | Digit

  predicate InClass(c: char, k: CharClass) {
    match k
    case Space => IsSpace(c)
    case Word => IsWord(c)
    case Alnum => IsAlnum(c)
    case DigitSlash => IsDigit(c) || c == '/'
    case DigitComma => IsDigit(c) || c == ','
    case Digit => IsDigit(c)
  }

  predicate AllIn(s: string, k: CharClass) {
    forall i :: 0 <= i < |s| ==> InClass(s[i], k)
  }

  /** The end of the longest run of class `k` in `s` starting at `i`. */
  function Span(s: string, i: nat, k: CharClass): (j: nat)
    requires i <= |s|
    ensures i <= j <= |s| && (j == |s| || !InClass(s[j], k))
    ensures forall x :: i <= x < j ==> InClass(s[x], k)
    decreases |s| - i
  {
    if i < |s| && InClass(s[i], k) then Span(s, i + 1, k) else i
  }

  lemma {:induction false} SpanAt(s: string, i: nat, j: nat, k: CharClass)
    requires i <= j <= |s| && (j == |s| || !InClass(s[j], k))
    requires forall x :: i <= x < j ==> InClass(s[x], k)
    ensures Span(s, i, k) == j
    decreases j - i
  {
    if i < j {
      SpanAt(s, i + 1, j, k);
    }
  }

  /** One element of a pattern: a literal character, a greedy `[class]+`,
      the same inside a capturing group, the captured amount `[\d,]+\.?\d*`,
      or a literal character compared without case (under `re.IGNORECASE`,
      for ASCII letters). */
  datatype Piece = Char(c: char) | Plus(k: CharClass) | Group(k: CharClass) | Decimal | Fold(c: char)

  predicate Captures(p: Piece) { p.Group? || p.Decimal? }

  /** `[\d,]+\.?\d*` at `i`: where it ends. */
  function Amount(s: string, i: nat): (r: Option<nat>)
    requires i <= |s|
    ensures r.Some? ==> i < r.value <= |s|
  {
    var m := Span(s, i, DigitComma);
    if m == i then None
    else if m < |s| && s[m] == '.' then Some(Span(s, m + 1, Digit))
    else Some(m)
  }

  /** Where one piece ends when it is tried at `i`. */
  function PieceEnd(p: Piece, s: string, i: nat): (r: Option<nat>)
    requires i <= |s|
    ensures r.Some? ==> i < r.value <= |s|
  {
    match p
    case Char(c) => if i < |s| && s[i] == c then Some(i + 1) else None
    case Decimal => Amount(s, i)
    case Fold(c) => if i < |s| && Lower(s[i]) == Lower(c) then Some(i + 1) else None
    case _ => var e := Span(s, i, p.k); if e == i then None else Some(e)
  }

  /** The pieces `ps[j..]` matched one after another from position `i`, with
      the texts captured so far in `acc`: all the captured texts and where the
      match ends. */
  function Run(ps: seq<Piece>, j: nat, s: string, i: nat, acc: seq<string>): (r: Option<(seq<string>, nat)>)
    requires i <= |s|
    ensures r.Some? ==> i <= r.value.1 <= |s|
    ensures r.Some? && j < |ps| ==> i < r.value.1
    decreases |ps| - j
  {
    if j >= |ps| then Some((acc, i))
    else
      var e := PieceEnd(ps[j], s, i);
      if e.None? then None
      else Run(ps, j + 1, s, e.value, if Captures(ps[j]) then acc + [s[i..e.value]] else acc)
  }

  /** What the captures of a successful run of `ps[j..]` look like, piece by piece. */
  predicate Fits(caps: seq<string>, ps: seq<Piece>, j: nat)
    decreases |ps| - j
  {
    if j >= |ps| then caps == []
    else if ps[j].Group? then caps != [] && |caps[0]| > 0 && AllIn(caps[0], ps[j].k) && Fits(caps[1..], ps, j + 1)
    else if ps[j].Decimal? then caps != [] && |caps[0]| > 0 && Fits(caps[1..], ps, j + 1)
    else Fits(caps, ps, j + 1)
  }

  /** A successful run keeps what was captured before and adds one non-empty
      text per capturing piece, each within its class. */
  lemma {:induction false} RunFits(ps: seq<Piece>, j: nat, s: string, i: nat, acc: seq<string>)
    requires i <= |s| && Run(ps, j, s, i, acc).Some?
    ensures var caps := Run(ps, j, s, i, acc).value.0;
      |acc| <= |caps| && caps[..|acc|] == acc && Fits(caps[|acc|..], ps, j)
    decreases |ps| - j
  {
    var caps := Run(ps, j, s, i, acc).value.0;
    if j >= |ps| {
      assert caps == acc;
    } else {
      var e := PieceEnd(ps[j], s, i).value;
      var acc' := if Captures(ps[j]) then acc + [s[i..e]] else acc;
      RunFits(ps, j + 1, s, e, acc');
      assert caps[..|acc'|] == acc';
      if Captures(ps[j]) {
        var x := s[i..e];
        assert ps[j].Group? ==> AllIn(x, ps[j].k);
        assert caps[..|acc|] == acc'[..|acc|] == acc;
        assert caps[|acc|] == acc'[|acc|] == x;
        assert caps[|acc|..][1..] == caps[|acc'|..];
      }
    }
  }

  /** `\((\w+)\)\s+pg\s+([A-Z0-9a-z]+)\s+([\d/]+)\s+\|\s+Total Fee:\s+Rs\s+([\d,]+\.?\d*)` */
  const FeePattern: seq<Piece> := [
    Char('('), Group(Word), Char(')'), Plus(Space), Char('p'), Char('g'), Plus(Space),
    Group(Alnum), Plus(Space), Group(DigitSlash), Plus(Space), Char('|'), Plus(Space),
    Char('T'), Char('o'), Char('t'), Char('a'), Char('l'), Char(' '), Char('F'), Char('e'), Char('e'), Char(':'),
    Plus(Space), Char('R'), Char('s'), Plus(Space), Decimal]

  /** What every capture of the pattern looks like. */
  predicate Shaped(m: FeeMatch) {
    && |m.tag| > 0 && AllIn(m.tag, Word)
    && |m.gateway| > 0 && AllIn(m.gateway, Alnum)
    && |m.date| > 0 && AllIn(m.date, DigitSlash)
    && |m.amount| > 0
  }

  /** Which pieces of the fee pattern capture, and in which classes. */
  lemma FeePieces()
    ensures |FeePattern| == 28 && !Captures(FeePattern[0]) && FeePattern[1] == Group(Word)
    ensures (forall x :: 2 <= x < 7 ==> !Captures(FeePattern[x])) && FeePattern[7] == Group(Alnum)
    ensures !Captures(FeePattern[8]) && FeePattern[9] == Group(DigitSlash)
    ensures (forall x :: 10 <= x < 27 ==> !Captures(FeePattern[x])) && FeePattern[27] == Decimal
  {
  }

  /** Pieces that capture nothing leave the captures to the pieces after them. */
  lemma {:induction false} FitsSkip(caps: seq<string>, ps: seq<Piece>, j: nat, n: nat)
    requires j <= n <= |ps| && Fits(caps, ps, j)
    requires forall x :: j <= x < n ==> !Captures(ps[x])
    ensures Fits(caps, ps, n)
    decreases n - j
  {
    if j < n {
      FitsSkip(caps, ps, j + 1, n);
    }
  }

  /** A capturing piece takes the first capture. */
  lemma FitsCapture(caps: seq<string>, ps: seq<Piece>, j: nat)
    requires j < |ps| && Captures(ps[j]) && Fits(caps, ps, j)
    ensures caps != [] && |caps[0]| > 0 && Fits(caps[1..], ps, j + 1)
    ensures ps[j].Group? ==> AllIn(caps[0], ps[j].k)
  {
  }

  /** The captures of the first half of the pattern: tag and gateway. */
  lemma FeeFitsFront(caps: seq<string>)
    requires Fits(caps, FeePattern, 0)
    ensures |caps| >= 2 && |caps[0]| > 0 && AllIn(caps[0], Word)
    ensures |caps[1]| > 0 && AllIn(caps[1], Alnum) && Fits(caps[2..], FeePattern, 8)
  {
    FeePieces();
    FitsFront(caps, FeePattern);
  }

  lemma FitsFront(caps: seq<string>, ps: seq<Piece>)
    requires |ps| == 28 && !Captures(ps[0]) && ps[1] == Group(Word)
    requires (forall x :: 2 <= x < 7 ==> !Captures(ps[x])) && ps[7] == Group(Alnum)
    requires Fits(caps, ps, 0)
    ensures |caps| >= 2 && |caps[0]| > 0 && AllIn(caps[0], Word)
    ensures |caps[1]| > 0 && AllIn(caps[1], Alnum) && Fits(caps[2..], ps, 8)
  {
    FitsSkip(caps, ps, 0, 1);
    FitsCapture(caps, ps, 1);
    var c1 := caps[1..];
    FitsSkip(c1, ps, 2, 7);
    FitsCapture(c1, ps, 7);
    assert c1[1..] == caps[2..];
  }

  /** The captures of the second half of the pattern: date and amount. */
  lemma FeeFitsBack(caps: seq<string>)
    requires Fits(caps, FeePattern, 8)
    ensures |caps| == 2 && |caps[0]| > 0 && AllIn(caps[0], DigitSlash) && |caps[1]| > 0
  {
    FeePieces();
    FitsBack(caps, FeePattern);
  }

  lemma FitsBack(caps: seq<string>, ps: seq<Piece>)
    requires |ps| == 28 && !Captures(ps[8]) && ps[9] == Group(DigitSlash)
    requires (forall x :: 10 <= x < 27 ==> !Captures(ps[x])) && ps[27] == Decimal
    requires Fits(caps, ps, 8)
    ensures |caps| == 2 && |caps[0]| > 0 && AllIn(caps[0], DigitSlash) && |caps[1]| > 0
  {
    FitsSkip(caps, ps, 8, 9);
    FitsCapture(caps, ps, 9);
    var c1 := caps[1..];
    FitsSkip(c1, ps, 10, 27);
    FitsCapture(c1, ps, 27);
    assert Fits(c1[1..], ps, 28);
  }

  /** The four captures of a run of the fee pattern. */
  lemma FeeFits(caps: seq<string>)
    requires Fits(caps, FeePattern, 0)
    ensures |caps| == 4 && Shaped(FeeMatch(caps[0], caps[1], caps[2], caps[3]))
  {
    FeeFitsFront(caps);
    FeeFitsBack(caps[2..]);
  }

  /** The pattern tried at position `i`: the captures and where the match ends. */
  function MatchAt(s: string, i: nat): (r: Option<(FeeMatch, nat)>)
    requires i <= |s|
    ensures r.Some? ==> i < r.value.1 <= |s| && Shaped(r.value.0)
    ensures i == |s| || s[i] != '(' ==> r == None
  {
    var r := if i < |s| && s[i] == '(' then Run(FeePattern, 0, s, i, []) else None;
    if r.None? then None
    else
      var caps := r.value.0;
      RunFits(FeePattern, 0, s, i, []);
      assert caps[0..] == caps;
      FeeFits(caps);
      Some((FeeMatch(caps[0], caps[1], caps[2], caps[3]), r.value.1))
  }

  /** The test of the first character in `MatchAt` only short-cuts the run: the
      pattern starts with a literal `(`, so the run fails anywhere else. */
  lemma NoParenNoRun(s: string, i: nat, acc: seq<string>)
    requires i <= |s| && (i == |s| || s[i] != '(')
    ensures Run(FeePattern, 0, s, i, acc) == None
  {
    CharFails(FeePattern, 0, s, i, acc);
  }

  /** `re.findall` from position `i`: matches left to right, resuming after each
      match, and one position further on where none starts. */
  function FindAll(s: string, i: nat): (ms: seq<FeeMatch>)
    requires i <= |s|
    decreases |s| - i
  {
    if i == |s| then []
    else
      var r := MatchAt(s, i);
      if r.Some? then [r.value.0] + FindAll(s, r.value.1) else FindAll(s, i + 1)
  }

  /** Every match found has the shape the pattern's classes allow. */
  lemma {:induction false} FindAllShaped(s: string, i: nat)
    requires i <= |s|
    ensures forall x :: 0 <= x < |FindAll(s, i)| ==> Shaped(FindAll(s, i)[x])
    decreases |s| - i
  {
    if i < |s| {
      var r := MatchAt(s, i);
      if r.Some? {
        FindAllShaped(s, r.value.1);
      } else {
        FindAllShaped(s, i + 1);
      }
    }
  }

  /** Where a match starts, `findall` takes it and resumes at its end; a
      newline there starts nothing. */
  lemma FindAllMatch(s: string, i: nat, m: FeeMatch, e: nat)
    requires i <= |s| && MatchAt(s, i) == Some((m, e)) && e < |s| && s[e] == '\n'
    ensures FindAll(s, i) == [m] + FindAll(s, e + 1)
  {
    assert FindAll(s, i) == [m] + FindAll(s, e);
    SkipOne(s, e);
  }

  /** No match starts where there is no opening parenthesis. */
  lemma SkipOne(s: string, i: nat)
    requires i < |s| && s[i] != '('
    ensures FindAll(s, i) == FindAll(s, i + 1)
  {
    assert MatchAt(s, i) == None;
  }

  /** Where no match starts, `findall` moves on by one position. */
  lemma SkipNone(s: string, i: nat)
    requires i < |s| && MatchAt(s, i) == None
    ensures FindAll(s, i) == FindAll(s, i + 1)
  {
  }

  /** A stretch without an opening parenthesis holds no match. */
  lemma {:induction false} SkipNoParen(s: string, i: nat, j: nat)
    requires i <= j <= |s| && forall x :: i <= x < j ==> s[x] != '('
    ensures FindAll(s, i) == FindAll(s, j)
    decreases j - i
  {
    if i < j {
      SkipOne(s, i);
      SkipNoParen(s, i + 1, j);
    }
  }

  // ---- running the pattern over known text ----

  lemma CharStep(ps: seq<Piece>, j: nat, s: string, i: nat, acc: seq<string>)
    requires j < |ps| && i < |s| && ps[j] == Char(s[i])
    ensures Run(ps, j, s, i, acc) == Run(ps, j + 1, s, i + 1, acc)
  {
  }

  lemma CharsStep(ps: seq<Piece>, j: nat, s: string, i: nat, w: string, acc: seq<string>)
    requires j + |w| <= |ps| && forall x :: 0 <= x < |w| ==> ps[j + x] == Char(w[x])
    requires OccursAt(s, w, i)
    ensures Run(ps, j, s, i, acc) == Run(ps, j + |w|, s, i + |w|, acc)
  {
    forall x | 0 <= x < |w| ensures RunMoves(ps, s, acc, j, i, x) {
      LiteralAt(ps, j, s, i, w, x);
      CharStep(ps, j + x, s, i + x, acc);
    }
    ChainRun(ps, s, acc, j, i, |w|);
  }

  lemma FoldStep(ps: seq<Piece>, j: nat, s: string, i: nat, acc: seq<string>)
    requires j < |ps| && i < |s| && ps[j].Fold? && Lower(s[i]) == Lower(ps[j].c)
    ensures Run(ps, j, s, i, acc) == Run(ps, j + 1, s, i + 1, acc)
  {
  }

  /** Pieces that spell `w` without case, over text that reads `w` in any case. */
  lemma FoldsStep(ps: seq<Piece>, j: nat, s: string, i: nat, w: string, acc: seq<string>)
    requires j + |w| <= |ps| && forall x :: 0 <= x < |w| ==> ps[j + x] == Fold(w[x])
    requires i + |w| <= |s| && forall x :: 0 <= x < |w| ==> Lower(s[i + x]) == Lower(w[x])
    ensures Run(ps, j, s, i, acc) == Run(ps, j + |w|, s, i + |w|, acc)
  {
    forall x | 0 <= x < |w| ensures RunMoves(ps, s, acc, j, i, x) {
      assert ps[j + x] == Fold(w[x]) && Lower(s[i + x]) == Lower(w[x]);
      FoldStep(ps, j + x, s, i + x, acc);
    }
    ChainRun(ps, s, acc, j, i, |w|);
  }

  /** Piece `j + x` takes exactly the character at `i + x`. */
  predicate RunMoves(ps: seq<Piece>, s: string, acc: seq<string>, j: nat, i: nat, x: nat) {
    i + x < |s| && Run(ps, j + x, s, i + x, acc) == Run(ps, j + x + 1, s, i + x + 1, acc)
  }

  /** Pieces that each take one character, one after another. */
  lemma {:induction false} ChainRun(ps: seq<Piece>, s: string, acc: seq<string>, j: nat, i: nat, k: nat)
    requires i + k <= |s|
    requires forall x :: 0 <= x < k ==> RunMoves(ps, s, acc, j, i, x)
    ensures Run(ps, j, s, i, acc) == Run(ps, j + k, s, i + k, acc)
  {
    if k > 0 {
      ChainRun(ps, s, acc, j, i, k - 1);
      assert RunMoves(ps, s, acc, j, i, k - 1);
    }
  }

  lemma LiteralAt(ps: seq<Piece>, j: nat, s: string, i: nat, w: string, x: nat)
    requires j + |w| <= |ps| && forall x :: 0 <= x < |w| ==> ps[j + x] == Char(w[x])
    requires OccursAt(s, w, i) && x < |w|
    ensures j + x < |ps| && i + x < |s| && ps[j + x] == Char(s[i + x])
  {
    assert s[i + x] == s[i..i + |w|][x] == w[x];
  }

  lemma PlusStep(ps: seq<Piece>, j: nat, s: string, i: nat, e: nat, acc: seq<string>)
    requires j < |ps| && ps[j].Plus?
    requires i < e <= |s| && (e == |s| || !InClass(s[e], ps[j].k))
    requires forall x :: i <= x < e ==> InClass(s[x], ps[j].k)
    ensures Run(ps, j, s, i, acc) == Run(ps, j + 1, s, e, acc)
  {
    SpanAt(s, i, e, ps[j].k);
  }

  lemma GroupStep(ps: seq<Piece>, j: nat, s: string, i: nat, e: nat, acc: seq<string>)
    requires j < |ps| && ps[j].Group?
    requires i < e <= |s| && (e == |s| || !InClass(s[e], ps[j].k))
    requires forall x :: i <= x < e ==> InClass(s[x], ps[j].k)
    ensures Run(ps, j, s, i, acc) == Run(ps, j + 1, s, e, acc + [s[i..e]])
  {
    SpanAt(s, i, e, ps[j].k);
  }

  lemma SpanFails(ps: seq<Piece>, j: nat, s: string, i: nat, acc: seq<string>)
    requires j < |ps| && (ps[j].Plus? || ps[j].Group?) && i <= |s|
    requires i == |s| || !InClass(s[i], ps[j].k)
    ensures Run(ps, j, s, i, acc) == None
  {
    SpanAt(s, i, i, ps[j].k);
  }

  lemma CharFails(ps: seq<Piece>, j: nat, s: string, i: nat, acc: seq<string>)
    requires j < |ps| && ps[j].Char? && i <= |s|
    requires i == |s| || s[i] != ps[j].c
    ensures Run(ps, j, s, i, acc) == None
  {
  }

  /** Digits, a point and digits: the amount piece takes all of them. */
  lemma AmountStep(s: string, i: nat, w: string, f: string)
    requires OccursAt(s, w + "." + f, i) && |w| > 0 && AllIn(w, Digit) && AllIn(f, Digit)
    requires var e := i + |w| + 1 + |f|; e == |s| || !IsDigit(s[e])
    ensures Amount(s, i) == Some(i + |w| + 1 + |f|)
  {
    var m := i + |w|;
    forall x | i <= x < m ensures InClass(s[x], DigitComma) {
      assert s[x] == (w + "." + f)[x - i] == w[x - i];
    }
    assert s[m] == (w + "." + f)[|w|] == '.';
    SpanAt(s, i, m, DigitComma);
    forall x | m + 1 <= x < m + 1 + |f| ensures InClass(s[x], Digit) {
      assert s[x] == (w + "." + f)[x - i] == f[x - m - 1];
    }
    SpanAt(s, m + 1, m + 1 + |f|, Digit);
  }

  lemma DecimalStep(ps: seq<Piece>, j: nat, s: string, i: nat, w: string, f: string, acc: seq<string>)
    requires j < |ps| && ps[j] == Decimal
    requires OccursAt(s, w + "." + f, i) && |w| > 0 && AllIn(w, Digit) && AllIn(f, Digit)
    requires var e := i + |w| + 1 + |f|; e == |s| || !IsDigit(s[e])
    ensures Run(ps, j, s, i, acc) == Run(ps, j + 1, s, i + |w| + 1 + |f|, acc + [w + "." + f])
  {
    AmountStep(s, i, w, f);
  }

  lemma DecimalFails(ps: seq<Piece>, j: nat, s: string, i: nat, acc: seq<string>)
    requires j < |ps| && ps[j] == Decimal && i <= |s|
    requires i == |s| || !InClass(s[i], DigitComma)
    ensures Run(ps, j, s, i, acc) == None
  {
    SpanAt(s, i, i, DigitComma);
  }

  // ---- the section after the grand-total marker ----

  const Marker := "==== GRAND TOTAL"

  /** The first position at or after `i` where `p` occurs in `s`. */
  function FindFrom(s: string, p: string, i: nat): (r: Option<nat>)
    requires |p| > 0
    ensures r.Some? ==> i <= r.value && OccursAt(s, p, r.value)
    ensures r.Some? ==> forall j :: i <= j < r.value ==> !OccursAt(s, p, j)
    ensures r.None? ==> forall j :: i <= j ==> !OccursAt(s, p, j)
    decreases |s| - i
  {
    if i + |p| > |s| then None
    else if OccursAt(s, p, i) then Some(i)
    else FindFrom(s, p, i + 1)
  }

  /** The first newline at or after `i`. */
  function NewlineFrom(s: string, i: nat): (r: Option<nat>)
    ensures r.Some? ==> i <= r.value < |s| && s[r.value] == '\n'
    ensures r.Some? ==> forall j :: i <= j < r.value ==> s[j] != '\n'
    ensures r.None? ==> forall j :: i <= j < |s| ==> s[j] != '\n'
    decreases |s| - i
  {
    if i >= |s| then None
    else if s[i] == '\n' then Some(i)
    else NewlineFrom(s, i + 1)
  }

  /** The end of the run of newlines starting at `i`. */
  function NewlinesEnd(s: string, i: nat): (k: nat)
    requires i <= |s|
    ensures i <= k <= |s| && (k == |s| || s[k] != '\n')
    ensures forall j :: i <= j < k ==> s[j] == '\n'
    decreases |s| - i
  {
    if i < |s| && s[i] == '\n' then NewlinesEnd(s, i + 1) else i
  }

  /** `re.search(r'==== GRAND TOTAL.*?\n+(.*)', content, re.DOTALL).group(1)`:
      everything after the first run of newlines that follows the first
      marker; `None` when there is no marker or no newline after it. */
  function Section(content: string): (r: Option<string>)
    ensures r.Some? ==> exists i :: 0 <= i <= |content| && r.value == content[i..]
  {
    match FindFrom(content, Marker, 0)
    case None => None
    case Some(p) =>
      match NewlineFrom(content, p + |Marker|)
      case None => None
      case Some(q) =>
        var e := NewlinesEnd(content, q);
        Some(content[e..])
  }

  /** A text without the marker yields no section at all. */
  lemma NoMarkerNoSection(content: string)
    requires !Contains(content, Marker)
    ensures Section(content) == None
  {
  }

  /** The marker is one line of text. */
  lemma MarkerLine()
    ensures |Marker| > 0 && Lacks(Marker, '\n')
  {
  }

  /** A pattern that follows a newline at the start of `tail` occurs in
      `pre + tail` just after that newline. */
  lemma OccursAfter(pre: string, tail: string, p: string)
    requires OccursAt(tail, "\n" + p, 0)
    ensures tail != [] && tail[0] == '\n'
    ensures OccursAt(pre + tail, p, |pre| + 1)
  {
    var content, a := pre + tail, |pre| + 1;
    assert tail[0] == ("\n" + p)[0];
    assert content[a..a + |p|] == tail[1..1 + |p|] == ("\n" + p)[1..];
  }

  /** A one-line pattern that does not occur in `pre` does not occur in
      `pre + tail` before the newline that starts `tail`. */
  lemma NoneBefore(pre: string, tail: string, p: string, v: nat)
    requires Lacks(p, '\n') && !Contains(pre, p)
    requires tail != [] && tail[0] == '\n' && v <= |pre|
    ensures !OccursAt(pre + tail, p, v)
  {
    var content := pre + tail;
    if v + |p| <= |pre| {
      assert content[v..v + |p|] == pre[v..v + |p|];
      assert !OccursAt(pre, p, v);
    } else if v + |p| <= |content| {
      assert content[v..v + |p|][|pre| - v] == content[|pre|] == '\n';
    }
  }

  /** The first occurrence of a one-line pattern `p` in `pre + "\n" + p + …`
      is the one after `pre` when `pre` has none. */
  lemma FirstOccurrence(pre: string, tail: string, p: string)
    requires |p| > 0 && Lacks(p, '\n')
    requires !Contains(pre, p)
    requires OccursAt(tail, "\n" + p, 0)
    ensures FindFrom(pre + tail, p, 0) == Some(|pre| + 1)
  {
    OccursAfter(pre, tail, p);
    forall v | 0 <= v < |pre| + 1 ensures !OccursAt(pre + tail, p, v) {
      NoneBefore(pre, tail, p, v);
    }
    FirstAt(pre + tail, p, |pre| + 1);
  }

  /** A pattern occurring at `a` and nowhere before is first found at `a`. */
  lemma FirstAt(s: string, p: string, a: nat)
    requires |p| > 0 && OccursAt(s, p, a)
    requires forall v :: 0 <= v < a ==> !OccursAt(s, p, v)
    ensures FindFrom(s, p, 0) == Some(a)
  {
  }

  /** The first marker in `pre + "\n" + Marker + …` is the one after `pre`
      when `pre` has none. */
  lemma FirstMarker(pre: string, tail: string)
    requires !Contains(pre, Marker)
    requires OccursAt(tail, "\n" + Marker, 0)
    ensures FindFrom(pre + tail, Marker, 0) == Some(|pre| + 1)
  {
    MarkerLine();
    FirstOccurrence(pre, tail, Marker);
  }

  /** `.*?\n` stops at the first newline, and `\n+` takes the run of them. */
  lemma AfterMarker(content: string, a: nat, x: string, rest: string)
    requires OccursAt(content, x + "\n\n", a) && a + |x| + 2 + |rest| == |content|
    requires content[a + |x| + 2..] == rest
    requires Lacks(x, '\n')
    requires rest == [] || rest[0] != '\n'
    ensures NewlineFrom(content, a) == Some(a + |x|)
    ensures NewlinesEnd(content, a + |x|) == a + |x| + 2
  {
    var w := x + "\n\n";
    forall i | a <= i < a + |x| ensures content[i] != '\n' {
      assert content[i] == content[a..a + |w|][i - a] == x[i - a];
    }
    assert content[a + |x|] == content[a..a + |w|][|x|] == '\n';
    assert content[a + |x| + 1] == content[a..a + |w|][|x| + 1] == '\n';
    var r := NewlineFrom(content, a);
    assert r.Some? && r.value == a + |x|;
    if rest != [] {
      assert content[a + |x| + 2] == rest[0];
    }
  }

  /** The section of a text made of `pre`, a footer line that opens with the
      marker, a blank line, and `rest`: exactly `rest`. */
  lemma SectionAfter(pre: string, x: string, rest: string)
    requires !Contains(pre, Marker)
    requires Lacks(x, '\n')
    requires rest == [] || rest[0] != '\n'
    ensures Section(pre + ("\n" + Marker + x + "\n\n") + rest) == Some(rest)
  {
    var content := pre + ("\n" + Marker + x + "\n\n") + rest;
    var tail, a := FooterLayout(pre, x, rest, content);
    SectionOf(content, pre, tail, a, x, rest);
  }

  lemma SectionOf(content: string, pre: string, tail: string, a: nat, x: string, rest: string)
    requires !Contains(pre, Marker) && Lacks(x, '\n') && (rest == [] || rest[0] != '\n')
    requires content == pre + tail && OccursAt(tail, "\n" + Marker, 0)
    requires a == |pre| + 1 + |Marker|
    requires OccursAt(content, x + "\n\n", a) && a + |x| + 2 + |rest| == |content|
    requires content[a + |x| + 2..] == rest
    ensures Section(content) == Some(rest)
  {
    FirstMarker(pre, tail);
    AfterMarker(content, a, x, rest);
    SectionIs(content, |pre| + 1, a + |x|, rest);
  }

  /** Where the parts of a text with a footer line lie: the footer starts
      right after `pre`, and its text after the marker starts at `a`. */
  lemma FooterLayout(pre: string, x: string, rest: string, content: string) returns (tail: string, a: nat)
    requires content == pre + ("\n" + Marker + x + "\n\n") + rest
    ensures content == pre + tail && OccursAt(tail, "\n" + Marker, 0)
    ensures a == |pre| + 1 + |Marker|
    ensures OccursAt(content, x + "\n\n", a) && a + |x| + 2 + |rest| == |content|
    ensures content[a + |x| + 2..] == rest
  {
    var footer := "\n" + Marker + x + "\n\n";
    tail := footer + rest;
    a := |pre| + 1 + |Marker|;
    AppendAssoc(pre, footer, rest);
    assert tail[..1 + |Marker|] == "\n" + Marker;
    assert content[a..a + |x| + 2] == x + "\n\n";
    assert content[a + |x| + 2..] == rest;
  }

  /** `Section` once the marker, the end of its line and the blank run are located. */
  lemma SectionIs(content: string, p: nat, q: nat, rest: string)
    requires FindFrom(content, Marker, 0) == Some(p)
    requires NewlineFrom(content, p + |Marker|) == Some(q)
    requires q + 2 <= |content| && NewlinesEnd(content, q) == q + 2 && content[q + 2..] == rest
    ensures Section(content) == Some(rest)
  {
  }
}
