/** The player tool (`selenium-add-player.py`): it reads player lines of the
    form `#<n> - Phone: <digits>, Email: <email>, Affiliate: <code>` from a
    text file, newest (last) line first, and fills the add-player form with
    each record's fields. */
module PhoneRecords {
  import opened Options
  import opened Strings
  import opened Calendar
  import opened Seqs
  import opened FeeMatcher

  /** One player line's fields, each stripped. */
  datatype Player = Player(phone: string, email: string, affiliate: string)

  // ---- the line pattern, matched from the start of a stripped line ----

  /** `#\d+\s+-\s+Phone:\s+`: the pattern before the phone group. */
  const PhonePrefix: seq<Piece> := [
    Fold('#'), Plus(Digit), Plus(Space), Fold('-'), Plus(Space),
    Fold('P'), Fold('h'), Fold('o'), Fold('n'), Fold('e'), Fold(':'), Plus(Space)]

  /** `,\s+Email:\s+`: from the end of the phone group to the email group. */
  const EmailPrefix: seq<Piece> := [
    Fold(','), Plus(Space), Fold('E'), Fold('m'), Fold('a'), Fold('i'), Fold('l'), Fold(':'), Plus(Space)]

  /** `,\s+Affiliate:\s+`: from the end of the email group to the affiliate group. */
  const AffiliatePrefix: seq<Piece> := [
    Fold(','), Plus(Space), Fold('A'), Fold('f'), Fold('f'), Fold('i'), Fold('l'), Fold('i'), Fold('a'),
    Fold('t'), Fold('e'), Fold(':'), Plus(Space)]

  /** Where the pieces `ps`, run from `i`, end. */
  function Through(ps: seq<Piece>, s: string, i: nat): (r: Option<nat>)
    requires i <= |s|
    ensures r.Some? ==> i <= r.value <= |s|
  {
    var r := Run(ps, 0, s, i, []);
    if r.None? then None else Some(r.value.1)
  }

  /** `\d+` at `i`: the end of the digit run there, if it is not empty. */
  function Digits(s: string, i: nat): (r: Option<nat>)
    requires i <= |s|
    ensures r.Some? ==> i < r.value <= |s| && AllDigits(s[i..r.value])
  {
    var k := DigitsEnd(s, i);
    if k == i then None else Some(k)
  }

  /** How far `.*` reaches from `i`: up to the first line break. */
  function LineEnd(s: string, i: nat): (k: nat)
    requires i <= |s|
    ensures i <= k <= |s| && (k == |s| || s[k] == '\n')
    ensures forall j :: i <= j < k ==> s[j] != '\n'
    decreases |s| - i
  {
    if i == |s| || s[i] == '\n' then i else LineEnd(s, i + 1)
  }

  /** `#\d+\s+-\s+Phone:\s+(\d+)`: where the phone digits start and end. */
  function PhoneField(s: string): (r: Option<(nat, nat)>)
    ensures r.Some? ==> r.value.0 < r.value.1 <= |s| && AllDigits(s[r.value.0..r.value.1])
  {
    match Through(PhonePrefix, s, 0)
    case None => None
    case Some(e) =>
      match Digits(s, e)
      case None => None
      case Some(f) => Some((e, f))
  }

  /** `,\s+Affiliate:\s+` at `j`: where the affiliate starts. */
  function AffiliateAt(s: string, j: nat): (r: Option<nat>)
    requires j <= |s|
    ensures r.Some? ==> j <= r.value <= |s|
  {
    Through(AffiliatePrefix, s, j)
  }

  /** A lazy `(.*?)` followed by the pieces `ps`: the first position from `i`
      on, not past a line break, where `ps` match. Gives that position and
      where the match of `ps` ends. */
  function LazyEnd(ps: seq<Piece>, s: string, i: nat): (r: Option<(nat, nat)>)
    requires i <= |s|
    ensures r.Some? ==> i <= r.value.0 <= |s| && Through(ps, s, r.value.0) == Some(r.value.1)
    ensures r.Some? ==> forall j :: i <= j < r.value.0 ==> s[j] != '\n'
    ensures r.Some? ==> forall j :: i <= j < r.value.0 ==> Through(ps, s, j).None?
    decreases |s| - i
  {
    match Through(ps, s, i)
    case Some(a) => Some((i, a))
    case None => if i < |s| && s[i] != '\n' then LazyEnd(ps, s, i + 1) else None
  }

  /** The lazy email group: where `,\s+Affiliate:\s+` first matches after
      `i`, and where the affiliate starts. */
  function EmailEnd(s: string, i: nat): (r: Option<(nat, nat)>)
    requires i <= |s|
    ensures r.Some? ==> i <= r.value.0 <= |s| && AffiliateAt(s, r.value.0) == Some(r.value.1)
    ensures r.Some? ==> forall j :: i <= j < r.value.0 ==> s[j] != '\n'
    ensures r.Some? ==> forall j :: i <= j < r.value.0 ==> AffiliateAt(s, j).None?
  {
    LazyEnd(AffiliatePrefix, s, i)
  }

  /** `,\s+Email:\s+(.*?),\s+Affiliate:\s+` from the end of the phone digits:
      where the email starts and ends and where the affiliate starts. */
  function EmailField(s: string, f: nat): (r: Option<(nat, nat, nat)>)
    requires f <= |s|
    ensures r.Some? ==> f <= r.value.0 <= r.value.1 <= r.value.2 <= |s|
    ensures r.Some? ==> Lacks(s[r.value.0..r.value.1], '\n')
  {
    match Through(EmailPrefix, s, f)
    case None => None
    case Some(k) =>
      match EmailEnd(s, k)
      case None => None
      case Some((j, a)) =>
        NoBreak(s, k, j);
        Some((k, j, a))
  }

  /** A stretch with no line break in it. */
  lemma NoBreak(s: string, i: nat, k: nat)
    requires i <= k <= |s| && forall x :: i <= x < k ==> s[x] != '\n'
    ensures Lacks(s[i..k], '\n')
  {
    assert forall x :: 0 <= x < k - i ==> s[i..k][x] == s[i + x];
  }

  /** What a parsed line can hold: a non-empty phone of digits, and an email
      and affiliate without surrounding whitespace or line breaks. */
  predicate PlayerShaped(p: Player) {
    && |p.phone| > 0 && AllDigits(p.phone)
    && Trimmed(p.email) && Lacks(p.email, '\n')
    && Trimmed(p.affiliate) && Lacks(p.affiliate, '\n')
  }

  /** `pattern.match(line)` and the stripped groups, or `None` for a line the
      pattern rejects. */
  function ParseLine(s: string): (r: Option<Player>)
    ensures r.Some? ==> PlayerShaped(r.value)
  {
    match PhoneField(s)
    case None => None
    case Some((e, f)) =>
      match EmailField(s, f)
      case None => None
      case Some((k, j, a)) =>
        var z := LineEnd(s, a);
        NoBreak(s, a, z);
        StrippedGroups(s[e..f], s[k..j], s[a..z]);
        Some(Player(Strip(s[e..f]), Strip(s[k..j]), Strip(s[a..z])))
  }

  /** The stripped groups of a match are shaped. */
  lemma StrippedGroups(phone: string, email: string, affiliate: string)
    requires |phone| > 0 && AllDigits(phone) && Lacks(email, '\n') && Lacks(affiliate, '\n')
    ensures PlayerShaped(Player(Strip(phone), Strip(email), Strip(affiliate)))
  {
    StripOfTrimmed(phone);
    StripTrimmed(email);
    StripTrimmed(affiliate);
    StripLacks(email, '\n');
    StripLacks(affiliate, '\n');
  }

  /** Stripping removes characters only from the ends. */
  lemma StripLacks(s: string, c: char)
    requires Lacks(s, c)
    ensures Lacks(Strip(s), c)
  {
    var l := StripLeft(s);
    assert forall i :: 0 <= i < |l| ==> l[i] == s[|s| - |l| + i];
  }

  // ---- the round trip for lines as the file is written ----

  /** A player line in the file's layout,
      `#<n> - Phone: <phone>, Email: <email>, Affiliate: <affiliate>`. */
  function FormatLine(n: nat, p: Player): string {
    "#" + (NatToString(n) + (" - Phone: " + (p.phone + (", Email: " + (p.email + (", Affiliate: " + p.affiliate))))))
  }

  /** The fields a line can carry so that it reads back: a phone of digits, an
      email without a comma or line break, a non-empty affiliate without a
      line break, and no surrounding whitespace on either. */
  predicate Writable(p: Player) {
    && |p.phone| > 0 && AllDigits(p.phone)
    && Trimmed(p.email) && Lacks(p.email, ',') && Lacks(p.email, '\n')
    && |p.affiliate| > 0 && Trimmed(p.affiliate) && Lacks(p.affiliate, '\n')
  }

  /** A line written from a player's fields is read back as those fields. */
  lemma ParseFormatLine(n: nat, p: Player)
    requires Writable(p)
    ensures ParseLine(FormatLine(n, p)) == Some(p)
  {
    StripOfTrimmed(p.phone);
    StripOfTrimmed(p.email);
    StripOfTrimmed(p.affiliate);
    var s := FormatLine(n, p);
    var num := NatToString(n);
    var e, f, k, j, a := LineLayout(s, num, p);
    PhoneOf(s, num, p.phone, e, f);
    EmailOf(s, f, k, j, a, p.email, p.affiliate);
    ParseLineOf(s, e, f, k, j, a, p);
  }

  /** `ParseLine` once the phone and email spans are known, over groups
      that stripping leaves alone. */
  lemma ParseLineOf(s: string, e: nat, f: nat, k: nat, j: nat, a: nat, p: Player)
    requires PhoneField(s) == Some((e, f)) && EmailField(s, f) == Some((k, j, a))
    requires LineEnd(s, a) == |s|
    requires s[e..f] == p.phone && s[k..j] == p.email && s[a..|s|] == p.affiliate
    requires Strip(p.phone) == p.phone && Strip(p.email) == p.email && Strip(p.affiliate) == p.affiliate
    ensures ParseLine(s) == Some(p)
  {
  }

  /** Where each piece of a written line sits: the phone from `e` to `f`,
      `, Email: ` at `f`, the email from `k` to `j`, `, Affiliate: ` at `j`
      and the affiliate from `a` to the end. */
  lemma LineLayout(s: string, num: string, p: Player) returns (e: nat, f: nat, k: nat, j: nat, a: nat)
    requires s == "#" + (num + (" - Phone: " + (p.phone + (", Email: " + (p.email + (", Affiliate: " + p.affiliate))))))
    ensures e == 11 + |num| && f == e + |p.phone| && k == f + 9 && j == k + |p.email| && a == j + 13
    ensures |s| == a + |p.affiliate| && s[0] == '#'
    ensures OccursAt(s, num, 1) && OccursAt(s, " - Phone: ", 1 + |num|)
    ensures OccursAt(s, p.phone, e) && s[e..f] == p.phone && OccursAt(s, ", Email: ", f)
    ensures OccursAt(s, p.email, k) && s[k..j] == p.email && OccursAt(s, ", Affiliate: ", j)
    ensures OccursAt(s, p.affiliate, a) && s[a..|s|] == p.affiliate
  {
    e, f := 11 + |num|, 11 + |num| + |p.phone|;
    k, j := f + 9, f + 9 + |p.email|;
    a := j + 13;
    var r := ", Email: " + (p.email + (", Affiliate: " + p.affiliate));
    assert s[0..] == s;
    Front4(s, 0, "#", num, " - Phone: ", p.phone, r);
    Front3(s, f, ", Email: ", p.email, ", Affiliate: ", p.affiliate);
    TextAtChar(s, 0, "#", 0);
  }

  /** Three pieces and the rest read off the front of what is left of `s` at `i`. */
  lemma Front3(s: string, i: nat, x1: string, x2: string, x3: string, rest: string)
    requires i <= |s| && s[i..] == x1 + (x2 + (x3 + rest))
    ensures OccursAt(s, x1, i) && OccursAt(s, x2, i + |x1|) && OccursAt(s, x3, i + |x1| + |x2|)
    ensures s[i + |x1| + |x2| + |x3|..] == rest && |s| == i + |x1| + |x2| + |x3| + |rest|
  {
    PieceAt(s, i, x1, x2 + (x3 + rest));
    PieceAt(s, i + |x1|, x2, x3 + rest);
    PieceAt(s, i + |x1| + |x2|, x3, rest);
  }

  /** Four pieces read off the front of what is left of `s` at `i`. */
  lemma Front4(s: string, i: nat, x1: string, x2: string, x3: string, x4: string, rest: string)
    requires i <= |s| && s[i..] == x1 + (x2 + (x3 + (x4 + rest)))
    ensures OccursAt(s, x1, i) && OccursAt(s, x2, i + |x1|) && OccursAt(s, x3, i + |x1| + |x2|)
    ensures OccursAt(s, x4, i + |x1| + |x2| + |x3|) && s[i + |x1| + |x2| + |x3| + |x4|..] == rest
  {
    PieceAt(s, i, x1, x2 + (x3 + (x4 + rest)));
    PieceAt(s, i + |x1|, x2, x3 + (x4 + rest));
    PieceAt(s, i + |x1| + |x2|, x3, x4 + rest);
    PieceAt(s, i + |x1| + |x2| + |x3|, x4, rest);
  }

  /** Reading a piece off the front of what is left of `s` at `i`. */
  lemma PieceAt(s: string, i: nat, x: string, rest: string)
    requires i <= |s| && s[i..] == x + rest
    ensures OccursAt(s, x, i) && s[i + |x|..] == rest
  {
    assert s[i..i + |x|] == s[i..][..|x|];
    assert s[i + |x|..] == s[i..][|x|..];
  }

  // ---- the pattern's pieces over a written line ----

  /** `#\d+\s+-\s+Phone:\s+`, piece by piece. */
  predicate PhoneShape(ps: seq<Piece>) {
    && |ps| == 12 && ps[0] == Fold('#') && ps[1] == Plus(Digit) && ps[2] == Plus(Space)
    && ps[3] == Fold('-') && ps[4] == Plus(Space)
    && (forall x :: 0 <= x < 6 ==> ps[5 + x] == Fold("Phone:"[x])) && ps[11] == Plus(Space)
  }

  /** `,\s+<word>\s+`, piece by piece: the shape of the email and affiliate prefixes. */
  predicate LabelShape(ps: seq<Piece>, word: string) {
    && |ps| == |word| + 3 && ps[0] == Fold(',') && ps[1] == Plus(Space)
    && (forall x :: 0 <= x < |word| ==> ps[2 + x] == Fold(word[x])) && ps[|word| + 2] == Plus(Space)
  }

  lemma PrefixShapes()
    ensures PhoneShape(PhonePrefix)
    ensures LabelShape(EmailPrefix, "Email:") && LabelShape(AffiliatePrefix, "Affiliate:")
  {
  }

  /** The front of a written line: the phone digits follow `#n - Phone: ` and
      end at the comma after them. */
  lemma PhoneOf(s: string, num: string, phone: string, e: nat, f: nat)
    requires |num| > 0 && AllDigits(num) && |phone| > 0 && AllDigits(phone)
    requires e == 11 + |num| && f == e + |phone|
    requires |s| > 0 && s[0] == '#' && OccursAt(s, num, 1) && OccursAt(s, " - Phone: ", 1 + |num|)
    requires OccursAt(s, phone, e) && OccursAt(s, ", Email: ", f)
    ensures PhoneField(s) == Some((e, f))
  {
    TextAtChar(s, e, phone, 0);
    TextAtChar(s, f, ", Email: ", 0);
    DigitsAt(s, e, phone);
    PhoneLabelOf(s, num);
  }

  /** `#\d+\s+-\s+Phone:\s+` over `#<num> - Phone: ` and what follows it. */
  lemma PhoneLabelOf(s: string, num: string)
    requires |num| > 0 && AllDigits(num)
    requires |s| > 0 && s[0] == '#' && OccursAt(s, num, 1) && OccursAt(s, " - Phone: ", 1 + |num|)
    requires 11 + |num| < |s| && !IsSpace(s[11 + |num|])
    ensures Through(PhonePrefix, s, 0) == Some(11 + |num|)
  {
    PrefixShapes();
    RunPhone(PhonePrefix, s, num);
  }

  /** `#\d+\s+-\s+Phone:\s+` over `#<num> - Phone: ` followed by a non-space. */
  lemma RunPhone(ps: seq<Piece>, s: string, num: string)
    requires PhoneShape(ps) && |num| > 0 && AllDigits(num)
    requires |s| > 0 && s[0] == '#' && OccursAt(s, num, 1) && OccursAt(s, " - Phone: ", 1 + |num|)
    requires 11 + |num| < |s| && !IsSpace(s[11 + |num|])
    ensures Run(ps, 0, s, 0, []) == Some(([], 11 + |num|))
  {
    var a := 1 + |num|;
    var w := " - Phone: ";
    forall x | 0 <= x < 10 ensures s[a + x] == w[x] {
      TextAtChar(s, a, w, x);
    }
    FoldStep(ps, 0, s, 0, []);
    forall x | 1 <= x < a ensures InClass(s[x], Digit) {
      TextAtChar(s, 1, num, x - 1);
    }
    PlusStep(ps, 1, s, 1, a, []);
    RunPhoneWord(ps, s, a);
  }

  /** `\s+-\s+Phone:\s+` over ` - Phone: ` followed by a non-space. */
  lemma RunPhoneWord(ps: seq<Piece>, s: string, a: nat)
    requires PhoneShape(ps) && a + 10 < |s| && !IsSpace(s[a + 10])
    requires forall x :: 0 <= x < 10 ==> s[a + x] == " - Phone: "[x]
    ensures Run(ps, 2, s, a, []) == Some(([], a + 10))
  {
    var w := " - Phone: ";
    assert s[a] == ' ' && s[a + 1] == '-' && s[a + 2] == ' ' && s[a + 3] == 'P' by {
      assert s[a + 0] == w[0] && s[a + 1] == w[1] && s[a + 2] == w[2] && s[a + 3] == w[3];
    }
    OneSpace(ps, 2, s, a, []);
    FoldStep(ps, 3, s, a + 1, []);
    OneSpace(ps, 4, s, a + 2, []);
    forall x | 0 <= x < 7 ensures s[a + 3 + x] == "Phone: "[x] {
      assert s[a + (3 + x)] == w[3 + x];
    }
    PhoneWord(ps, s, a + 3);
  }

  /** `Phone:\s+` over `Phone: ` followed by a non-space. */
  lemma PhoneWord(ps: seq<Piece>, s: string, i: nat)
    requires PhoneShape(ps) && i + 7 < |s| && !IsSpace(s[i + 7])
    requires forall x :: 0 <= x < 7 ==> s[i + x] == "Phone: "[x]
    ensures Run(ps, 5, s, i, []) == Some(([], i + 7))
  {
    forall x | 0 <= x < 6 ensures Lower(s[i + x]) == Lower("Phone:"[x]) {
      assert s[i + x] == "Phone: "[x];
    }
    assert s[i + 6] == "Phone: "[6];
    FoldsStep(ps, 5, s, i, "Phone:", []);
    OneSpace(ps, 11, s, i + 6, []);
  }

  /** `\s+` over a single space followed by a non-space. */
  lemma OneSpace(ps: seq<Piece>, j: nat, s: string, i: nat, acc: seq<string>)
    requires j < |ps| && ps[j] == Plus(Space)
    requires i + 1 < |s| && s[i] == ' ' && !IsSpace(s[i + 1])
    ensures Run(ps, j, s, i, acc) == Run(ps, j + 1, s, i + 1, acc)
  {
    PlusStep(ps, j, s, i, i + 1, acc);
  }

  /** `,\s+<word>\s+` over `, <word> ` followed by a non-space. */
  lemma RunLabel(ps: seq<Piece>, word: string, s: string, i: nat)
    requires LabelShape(ps, word) && |word| > 0 && !IsSpace(word[0]) && !IsSpace(word[|word| - 1])
    requires i + |word| + 3 < |s| && !IsSpace(s[i + |word| + 3])
    requires s[i] == ',' && s[i + 1] == ' ' && s[i + |word| + 2] == ' '
    requires forall x :: 0 <= x < |word| ==> s[i + 2 + x] == word[x]
    ensures Run(ps, 0, s, i, []) == Some(([], i + |word| + 3))
  {
    var m := i + |word| + 2;
    FoldStep(ps, 0, s, i, []);
    PlusStep(ps, 1, s, i + 1, i + 2, []);
    FoldsStep(ps, 2, s, i + 2, word, []);
    PlusStep(ps, |word| + 2, s, m, m + 1, []);
  }

  /** `\d+` at `i` takes exactly the digits `d` written there. */
  lemma DigitsAt(s: string, i: nat, d: string)
    requires OccursAt(s, d, i) && |d| > 0 && AllDigits(d)
    requires i + |d| < |s| && !IsDigit(s[i + |d|])
    ensures Digits(s, i) == Some(i + |d|)
  {
    forall j | i <= j < i + |d| ensures IsDigit(s[j]) {
      assert s[j] == d[j - i];
    }
    DigitsEndAt(s, i, i + |d|);
  }

  /** The back of a written line, after the phone: the email runs to the
      comma of `, Affiliate: ` and the affiliate to the end. */
  lemma EmailOf(s: string, f: nat, k: nat, j: nat, a: nat, email: string, affiliate: string)
    requires Trimmed(email) && Lacks(email, ',') && Lacks(email, '\n')
    requires |affiliate| > 0 && Trimmed(affiliate) && Lacks(affiliate, '\n')
    requires k == f + 9 && j == k + |email| && a == j + 13 && |s| == a + |affiliate|
    requires OccursAt(s, ", Email: ", f) && OccursAt(s, email, k)
    requires OccursAt(s, ", Affiliate: ", j) && OccursAt(s, affiliate, a)
    ensures EmailField(s, f) == Some((k, j, a))
    ensures LineEnd(s, a) == |s|
  {
    AffiliateOf(s, j, affiliate);
    if email != [] {
      TextAtChar(s, k, email, 0);
    } else {
      TextAtChar(s, j, ", Affiliate: ", 0);
    }
    EmailLabelOf(s, f);
    Avoids(s, k, email, ',');
    Avoids(s, k, email, '\n');
    LazyEndAt(AffiliatePrefix, s, k, j, a);
    Avoids(s, a, affiliate, '\n');
    LineEndAtEnd(s, a);
  }

  /** `,\s+Email:\s+` over `, Email: ` and what follows it. */
  lemma EmailLabelOf(s: string, f: nat)
    requires OccursAt(s, ", Email: ", f) && f + 9 < |s| && !IsSpace(s[f + 9])
    ensures Through(EmailPrefix, s, f) == Some(f + 9)
  {
    PrefixShapes();
    LabelAt(s, f, ", Email: ", "Email:", EmailPrefix);
  }

  /** `,\s+Affiliate:\s+` over `, Affiliate: ` and a trimmed affiliate. */
  lemma AffiliateOf(s: string, j: nat, affiliate: string)
    requires |affiliate| > 0 && Trimmed(affiliate)
    requires OccursAt(s, ", Affiliate: ", j) && OccursAt(s, affiliate, j + 13)
    ensures AffiliateAt(s, j) == Some(j + 13)
  {
    TextAtChar(s, j + 13, affiliate, 0);
    PrefixShapes();
    LabelAt(s, j, ", Affiliate: ", "Affiliate:", AffiliatePrefix);
  }

  /** The email or affiliate prefix over its written text `, <word> `. */
  lemma LabelAt(s: string, i: nat, w: string, word: string, ps: seq<Piece>)
    requires w == ", " + word + " " && LabelShape(ps, word)
    requires |word| > 0 && !IsSpace(word[0]) && !IsSpace(word[|word| - 1])
    requires OccursAt(s, w, i) && i + |w| < |s| && !IsSpace(s[i + |w|])
    ensures Through(ps, s, i) == Some(i + |w|)
  {
    forall x | 0 <= x < |w| ensures s[i + x] == w[x] {
      TextAtChar(s, i, w, x);
    }
    forall x | 0 <= x < |word| ensures s[i + 2 + x] == word[x] {
      assert w[2 + x] == word[x];
    }
    RunLabel(ps, word, s, i);
  }

  /** A text without `c`, written at `i`, puts no `c` there. */
  lemma Avoids(s: string, i: nat, w: string, c: char)
    requires OccursAt(s, w, i) && Lacks(w, c)
    ensures forall x :: i <= x < i + |w| ==> s[x] != c
  {
    forall x | i <= x < i + |w| ensures s[x] != c {
      TextAtChar(s, i, w, x - i);
    }
  }

  /** The lazy group stops at the first place its follower matches: a
      follower that starts with a comma, over text without commas. */
  lemma {:induction false} LazyEndAt(ps: seq<Piece>, s: string, i: nat, j: nat, a: nat)
    requires |ps| > 0 && ps[0] == Fold(',')
    requires i <= j <= |s|
    requires forall x :: i <= x < j ==> s[x] != ',' && s[x] != '\n'
    requires Through(ps, s, j) == Some(a)
    ensures LazyEnd(ps, s, i) == Some((j, a))
    decreases j - i
  {
    if i < j {
      assert Lower(s[i]) != Lower(',');
      LazyEndAt(ps, s, i + 1, j, a);
    }
  }

  lemma LineEndAtEnd(s: string, i: nat)
    requires i <= |s| && forall x :: i <= x < |s| ==> s[x] != '\n'
    ensures LineEnd(s, i) == |s|
  {
  }

  // ---- loading the file ----

  /** `[line.strip() for line in file if line.strip()]`: the stripped
      non-blank lines, in file order. */
  function Kept(lines: seq<string>): (ks: seq<string>)
    ensures |ks| <= |lines|
    ensures forall i :: 0 <= i < |ks| ==> ks[i] != [] && Trimmed(ks[i])
  {
    if lines == [] then []
    else
      StripTrimmed(lines[0]);
      (if Strip(lines[0]) != [] then [Strip(lines[0])] else []) + Kept(lines[1..])
  }

  /** The values present in a sequence of options, in order. */
  function Somes<T>(os: seq<Option<T>>): (r: seq<T>)
    ensures |r| <= |os|
  {
    if os == [] then []
    else (if os[0].Some? then [os[0].value] else []) + Somes(os[1..])
  }

  /** `load_phone_records_from_file` on the file's lines: the kept lines are
      reversed and each matching one becomes a record; the rest are skipped. */
  function LoadRecords(lines: seq<string>): seq<Player> {
    Somes(Map(Reverse(Kept(lines)), ParseLine))
  }

  lemma {:induction false} SomesAppend<T>(a: seq<Option<T>>, b: seq<Option<T>>)
    ensures Somes(a + b) == Somes(a) + Somes(b)
  {
    if a == [] {
      assert a + b == b;
    } else {
      assert (a + b)[0] == a[0] && (a + b)[1..] == a[1..] + b;
      SomesAppend(a[1..], b);
      var head := if a[0].Some? then [a[0].value] else [];
      AppendAssoc(head, Somes(a[1..]), Somes(b));
    }
  }

  lemma {:induction false} KeptAppend(a: seq<string>, b: seq<string>)
    ensures Kept(a + b) == Kept(a) + Kept(b)
  {
    if a == [] {
      assert a + b == b;
    } else {
      assert (a + b)[0] == a[0] && (a + b)[1..] == a[1..] + b;
      KeptAppend(a[1..], b);
      var head := if Strip(a[0]) != [] then [Strip(a[0])] else [];
      AppendAssoc(head, Kept(a[1..]), Kept(b));
    }
  }

  lemma ReverseAppend<T>(a: seq<T>, b: seq<T>)
    ensures Reverse(a + b) == Reverse(b) + Reverse(a)
  {
    var r := Reverse(a + b);
    forall i | 0 <= i < |r| ensures r[i] == (Reverse(b) + Reverse(a))[i] {
      if i < |b| {
        assert (a + b)[|a + b| - 1 - i] == b[|b| - 1 - i];
      } else {
        assert (a + b)[|a + b| - 1 - i] == a[|a| - 1 - (i - |b|)];
      }
    }
  }

  lemma MapReverse<T, U>(s: seq<T>, f: T -> U)
    ensures Map(Reverse(s), f) == Reverse(Map(s, f))
  {
  }

  /** Keeping the present values commutes with reversal. */
  lemma {:induction false} SomesReverse<T>(os: seq<Option<T>>)
    ensures Somes(Reverse(os)) == Reverse(Somes(os))
  {
    if os != [] {
      var head := if os[0].Some? then [os[0].value] else [];
      assert os == [os[0]] + os[1..];
      ReverseAppend([os[0]], os[1..]);
      assert Reverse([os[0]]) == [os[0]];
      SomesReverse(os[1..]);
      SomesAppend(Reverse(os[1..]), [os[0]]);
      assert [os[0]][1..] == [];
      assert Somes([os[0]]) == head + Somes([]);
      ReverseAppend(head, Somes(os[1..]));
      assert Reverse(head) == head;
    }
  }

  /** As many values as options exactly when every option holds one. */
  lemma {:induction false} SomesCount<T>(os: seq<Option<T>>)
    ensures |Somes(os)| == |os| <==> forall i :: 0 <= i < |os| ==> os[i].Some?
  {
    if os != [] {
      SomesCount(os[1..]);
      AllSomeCons(os);
    }
  }

  lemma AllSomeCons<T>(os: seq<Option<T>>)
    requires os != []
    ensures (forall i :: 0 <= i < |os| ==> os[i].Some?)
      <==> os[0].Some? && forall i :: 0 <= i < |os[1..]| ==> os[1..][i].Some?
  {
    if os[0].Some? && forall i :: 0 <= i < |os[1..]| ==> os[1..][i].Some? {
      forall i | 0 < i < |os| ensures os[i].Some? {
        assert os[1..][i - 1] == os[i];
      }
    }
  }

  /** Each option that holds a value gives exactly that value. */
  lemma {:induction false} SomesAllPresent<T>(os: seq<Option<T>>, vs: seq<T>)
    requires |os| == |vs| && forall i :: 0 <= i < |os| ==> os[i] == Some(vs[i])
    ensures Somes(os) == vs
  {
    if os != [] {
      forall i | 0 <= i < |os[1..]| ensures os[1..][i] == Some(vs[1..][i]) {
        assert os[1..][i] == os[i + 1];
      }
      SomesAllPresent(os[1..], vs[1..]);
      assert vs == [vs[0]] + vs[1..];
    }
  }

  /** The records come out newest first: the records of the kept lines, in
      reverse file order. */
  lemma LoadNewestFirst(lines: seq<string>)
    ensures LoadRecords(lines) == Reverse(Somes(Map(Kept(lines), ParseLine)))
  {
    MapReverse(Kept(lines), ParseLine);
    SomesReverse(Map(Kept(lines), ParseLine));
  }

  /** One record per non-blank line exactly when every such line matches;
      otherwise fewer. */
  lemma LoadCount(lines: seq<string>)
    ensures |LoadRecords(lines)| <= |Kept(lines)|
    ensures |LoadRecords(lines)| == |Kept(lines)|
      <==> forall i :: 0 <= i < |Kept(lines)| ==> ParseLine(Kept(lines)[i]).Some?
  {
    var os := Map(Kept(lines), ParseLine);
    LoadNewestFirst(lines);
    SomesCount(os);
  }

  /** A line the pattern rejects, or a blank one, changes nothing else:
      removing it leaves the same records. */
  lemma SkippedLineIgnored(a: seq<string>, bad: string, b: seq<string>)
    requires Strip(bad) == [] || ParseLine(Strip(bad)).None?
    ensures LoadRecords(a + [bad] + b) == LoadRecords(a + b)
  {
    SkipKept(a, bad, b, ParseLine);
  }

  /** The same for any reading `f` of the kept lines, reversed. */
  lemma SkipKept<U>(a: seq<string>, bad: string, b: seq<string>, f: string -> Option<U>)
    requires Strip(bad) == [] || f(Strip(bad)).None?
    ensures Somes(Map(Reverse(Kept(a + [bad] + b)), f)) == Somes(Map(Reverse(Kept(a + b)), f))
  {
    KeptSplit(a, bad, b);
    SomesSkip(Kept(a), Kept([bad]), Kept(b), f);
    SomesMapReverse(Kept(a + [bad] + b), f);
    SomesMapReverse(Kept(a + b), f);
  }

  lemma KeptSplit(a: seq<string>, bad: string, b: seq<string>)
    ensures Kept(a + [bad] + b) == Kept(a) + Kept([bad]) + Kept(b)
    ensures Kept(a + b) == Kept(a) + Kept(b)
    ensures Kept([bad]) == if Strip(bad) != [] then [Strip(bad)] else []
  {
    KeptAppend(a + [bad], b);
    KeptAppend(a, [bad]);
    KeptAppend(a, b);
    assert [bad][1..] == [];
  }

  lemma SomesMapReverse<T, U>(k: seq<T>, f: T -> Option<U>)
    ensures Somes(Map(Reverse(k), f)) == Reverse(Somes(Map(k, f)))
  {
    MapReverse(k, f);
    SomesReverse(Map(k, f));
  }

  /** Elements that map to no value can be dropped before keeping the values. */
  lemma SomesSkip<T, U>(xs: seq<T>, skipped: seq<T>, ys: seq<T>, f: T -> Option<U>)
    requires forall i :: 0 <= i < |skipped| ==> f(skipped[i]).None?
    ensures Somes(Map(xs + skipped + ys, f)) == Somes(Map(xs + ys, f))
  {
    MapAppend(xs + skipped, ys, f);
    MapAppend(xs, skipped, f);
    MapAppend(xs, ys, f);
    var ox, os, oy := Map(xs, f), Map(skipped, f), Map(ys, f);
    SomesNone(os);
    SomesAppend(ox + os, oy);
    SomesAppend(ox, os);
    SomesAppend(ox, oy);
    assert Somes(ox) + [] == Somes(ox);
  }

  lemma {:induction false} SomesNone<T>(os: seq<Option<T>>)
    requires forall i :: 0 <= i < |os| ==> os[i].None?
    ensures Somes(os) == []
  {
    if os != [] {
      assert os[1..][0..] == os[1..];
      forall i | 0 <= i < |os[1..]| ensures os[1..][i].None? {
        assert os[1..][i] == os[i + 1];
      }
      SomesNone(os[1..]);
    }
  }

  /** A file written one player per line, numbered from 1, loads as those
      players, last written first. */
  lemma LoadWritten(ps: seq<Player>)
    requires forall i :: 0 <= i < |ps| ==> Writable(ps[i])
    ensures LoadRecords(WrittenFile(ps)) == Reverse(ps)
  {
    var lines := WrittenFile(ps);
    forall i | 0 <= i < |lines| ensures lines[i] != [] && Strip(lines[i]) == lines[i] {
      WrittenTrimmed(i + 1, ps[i]);
    }
    KeptTrimmed(lines);
    WrittenParsed(ps);
    LoadNewestFirst(lines);
  }

  /** Every written line reads back as its player. */
  lemma WrittenParsed(ps: seq<Player>)
    requires forall i :: 0 <= i < |ps| ==> Writable(ps[i])
    ensures Somes(Map(WrittenFile(ps), ParseLine)) == ps
  {
    var os := Map(WrittenFile(ps), ParseLine);
    forall i | 0 <= i < |os| ensures os[i] == Some(ps[i]) {
      ParseFormatLine(i + 1, ps[i]);
    }
    SomesAllPresent(os, ps);
  }

  /** The lines of a file holding `ps`, numbered from 1. */
  function WrittenFile(ps: seq<Player>): (lines: seq<string>)
    ensures |lines| == |ps| && forall i :: 0 <= i < |ps| ==> lines[i] == FormatLine(i + 1, ps[i])
  {
    seq(|ps|, i requires 0 <= i < |ps| => FormatLine(i + 1, ps[i]))
  }

  /** A written line has no surrounding whitespace and is not blank. */
  lemma WrittenTrimmed(n: nat, p: Player)
    requires Writable(p)
    ensures FormatLine(n, p) != [] && Strip(FormatLine(n, p)) == FormatLine(n, p)
  {
    var s := FormatLine(n, p);
    var e, f, k, j, a := LineLayout(s, NatToString(n), p);
    TextAtChar(s, a, p.affiliate, |p.affiliate| - 1);
    StripOfTrimmed(s);
  }

  /** Lines that are already stripped and not blank are all kept. */
  lemma {:induction false} KeptTrimmed(lines: seq<string>)
    requires forall i :: 0 <= i < |lines| ==> lines[i] != [] && Strip(lines[i]) == lines[i]
    ensures Kept(lines) == lines
  {
    if lines != [] {
      KeptTrimmed(lines[1..]);
      assert lines == [lines[0]] + lines[1..];
    }
  }

  // ---- filling the form ----

  /** One input of the add-player form, named by its placeholder. */
  datatype Input = Input(placeholder: string, value: string)

  /** The inputs `add_player_details` fills, in order: the phone goes into
      both the player ID and the phone number, the email only when it is not
      `-`, and the affiliate code into both affiliate inputs. */
  function FormInputs(p: Player): seq<Input> {
    [Input("Player ID", p.phone), Input("Phone Number", p.phone)]
    + (if p.email != "-" then [Input("Email", p.email)] else [])
    + [Input("Enter affiliate name", p.affiliate), Input("Enter affiliate ID", p.affiliate)]
  }

  /** What ends up in the input with the given placeholder, if it is filled. */
  function Filled(inputs: seq<Input>, placeholder: string): Option<string> {
    if inputs == [] then None
    else if inputs[0].placeholder == placeholder then Some(inputs[0].value)
    else Filled(inputs[1..], placeholder)
  }

  /** Inputs with other placeholders in front change nothing. */
  lemma {:induction false} FilledSkip(xs: seq<Input>, ys: seq<Input>, placeholder: string)
    requires forall i :: 0 <= i < |xs| ==> xs[i].placeholder != placeholder
    ensures Filled(xs + ys, placeholder) == Filled(ys, placeholder)
  {
    if xs != [] {
      assert (xs + ys)[1..] == xs[1..] + ys;
      FilledSkip(xs[1..], ys, placeholder);
    } else {
      assert xs + ys == ys;
    }
  }

  /** A written player line fills the form with its own fields: the phone as
      player ID and phone number, the email unless it is `-`, and the
      affiliate code as both affiliate name and affiliate ID. */
  lemma FormFromLine(n: nat, p: Player)
    requires Writable(p)
    ensures ParseLine(FormatLine(n, p)).Some?
    ensures var q := ParseLine(FormatLine(n, p)).value;
      && Filled(FormInputs(q), "Player ID") == Some(p.phone)
      && Filled(FormInputs(q), "Phone Number") == Some(p.phone)
      && Filled(FormInputs(q), "Email") == (if p.email == "-" then None else Some(p.email))
      && Filled(FormInputs(q), "Enter affiliate name") == Some(p.affiliate)
      && Filled(FormInputs(q), "Enter affiliate ID") == Some(p.affiliate)
  {
    ParseFormatLine(n, p);
    FormLookups(p);
  }

  /** Each input of the form holds the record field the program types into
      it; the email input is left alone for `-`. */
  lemma FormLookups(p: Player)
    ensures Filled(FormInputs(p), "Player ID") == Some(p.phone)
    ensures Filled(FormInputs(p), "Phone Number") == Some(p.phone)
    ensures Filled(FormInputs(p), "Email") == (if p.email == "-" then None else Some(p.email))
    ensures Filled(FormInputs(p), "Enter affiliate name") == Some(p.affiliate)
    ensures Filled(FormInputs(p), "Enter affiliate ID") == Some(p.affiliate)
    ensures |FormInputs(p)| == (if p.email == "-" then 4 else 5)
  {
    var fs := FormInputs(p);
    var ids := [Input("Player ID", p.phone), Input("Phone Number", p.phone)];
    var mid := if p.email != "-" then [Input("Email", p.email)] else [];
    var tail := [Input("Enter affiliate name", p.affiliate), Input("Enter affiliate ID", p.affiliate)];
    assert |"Player ID"| == 9 && |"Phone Number"| == 12 && |"Email"| == 5;
    assert |"Enter affiliate name"| == 20 && |"Enter affiliate ID"| == 18;
    assert fs == ids + (mid + tail);
    assert fs[1..][0] == ids[1];
    FilledSkip(ids, mid + tail, "Email");
    FilledSkip(ids + mid, tail, "Enter affiliate name");
    FilledSkip(ids + mid, tail, "Enter affiliate ID");
    FilledSkip(tail, [], "Email");
    assert tail + [] == tail && (ids + mid) + tail == fs;
    assert tail[1..][0] == tail[1];
    if p.email != "-" {
      assert (mid + tail)[0] == Input("Email", p.email);
    } else {
      assert mid + tail == tail;
    }
  }
}
