/** Money as integer hundredths of a rupee, with the decimal text forms the
    program reads (`float(text)`) and writes (`:.2f` and `:,.2f`). */
module Money {
  import opened Options
  import opened Strings

  /** An amount in hundredths (paise). */
  type Cents = int

  /** `|c| / 100` and `|c| % 100`: the rupee and paise parts of the magnitude. */
  function Rupees(c: Cents): nat { if c < 0 then -c / 100 else c / 100 }

  function Paise(c: Cents): nat { if c < 0 then (-c) % 100 else c % 100 }

  /** Two fraction digits, `%02d`. */
  function TwoDigits(n: nat): (r: string)
    requires n < 100
    ensures |r| == 2 && AllDigits(r) && DigitsValue(r) == n
  {
    var r := [DigitChar(n / 10), DigitChar(n % 10)];
    assert r[..1][..0] == [];
    assert DigitsValue(r[..1]) == n / 10;
    r
  }

  /** `f"{x:.2f}"`: optional minus sign, the whole rupees, a point and two digits. */
  function Fixed2(c: Cents): (r: string)
    ensures |r| >= 4
  {
    if c < 0 then "-" + Magnitude2(c) else Magnitude2(c)
  }

  /** The unsigned part of `Fixed2`: the whole rupees, a point and two digits. */
  function Magnitude2(c: Cents): (r: string)
    ensures |r| >= 4
  {
    NatToString(Rupees(c)) + "." + TwoDigits(Paise(c))
  }

  /** `f"{n:,}"` for the digits of a whole number: a comma before every group
      of three digits counted from the right. */
  function GroupDigits(s: string): (r: string)
    decreases |s|
  {
    if |s| <= 3 then s else GroupDigits(s[..|s| - 3]) + "," + s[|s| - 3..]
  }

  /** `f"{x:,.2f}"`: like `Fixed2`, with thousands separators in the rupees. */
  function Thousands(c: Cents): (r: string)
  {
    if c < 0 then "-" + Grouped2(c) else Grouped2(c)
  }

  /** The unsigned part of `Thousands`. */
  function Grouped2(c: Cents): (r: string)
  {
    GroupDigits(NatToString(Rupees(c))) + "." + TwoDigits(Paise(c))
  }

  /** Deleting the separators from a grouped run of digits gives the run back. */
  lemma {:induction false} UngroupDigits(s: string)
    requires AllDigits(s)
    ensures RemoveAll(GroupDigits(s), ",") == s
    decreases |s|
  {
    if |s| > 3 {
      var a, b := s[..|s| - 3], s[|s| - 3..];
      var ga := GroupDigits(a);
      assert GroupDigits(s) == ga + ("," + b);
      UngroupDigits(a);
      UngroupStep(ga, a, b);
      assert a + b == s;
    } else {
      RemoveCharSpec(s, ',');
    }
  }

  /** One more group of digits after a separator. */
  lemma UngroupStep(ga: string, a: string, b: string)
    requires RemoveAll(ga, ",") == a && AllDigits(b)
    ensures RemoveAll(ga + ("," + b), ",") == a + b
  {
    RemoveCommaConcat(ga, "," + b);
    RemoveCommaConcat(",", b);
    assert RemoveAll(",", ",") == [] by {
      assert ","[..1] == ",";
      assert ","[1..] == [];
    }
    assert ',' !in b;
    RemoveCharSpec(b, ',');
  }

  /** Deleting a single character distributes over concatenation. */
  lemma {:induction false} RemoveCommaConcat(x: string, y: string)
    ensures RemoveAll(x + y, ",") == RemoveAll(x, ",") + RemoveAll(y, ",")
    decreases |x|
  {
    if x == [] {
      assert x + y == y;
    } else {
      assert (x + y)[1..] == x[1..] + y;
      assert (x + y)[..1] == x[..1];
      RemoveCommaConcat(x[1..], y);
    }
  }

  /** The thousands form with its commas removed is the plain two-decimal form,
      which is what the fee-line reader does before converting to a number. */
  lemma ThousandsWithoutCommas(c: Cents)
    ensures RemoveAll(Thousands(c), ",") == Fixed2(c)
  {
    FixedSign(c);
    UngroupMagnitude(c);
    if c < 0 {
      RemoveCommaConcat("-", Grouped2(c));
      RemoveCharSpec("-", ',');
    }
  }

  lemma UngroupMagnitude(c: Cents)
    ensures RemoveAll(Grouped2(c), ",") == Magnitude2(c)
  {
    var digits, frac := NatToString(Rupees(c)), TwoDigits(Paise(c));
    var g := GroupDigits(digits);
    RemoveCommaConcat(g + ".", frac);
    RemoveCommaConcat(g, ".");
    UngroupDigits(digits);
    RemoveCharSpec(".", ',');
    RemoveCharSpec(frac, ',');
  }

  /** A decimal numeral as `float()` accepts it, restricted to what can be held
      exactly in hundredths: surrounding whitespace, an optional sign, digits,
      and optionally a point followed by at most two digits; at least one digit
      overall. Anything else is not a number (`None`). */
  function ParseDecimal(text: string): (r: Option<Cents>)
  {
    var t := Strip(text);
    if |t| > 0 && (t[0] == '-' || t[0] == '+') then
      match ParseUnsigned(t[1..])
      case Some(v) => Some(Signed(t[0] == '-', v))
      case None => None
    else
      match ParseUnsigned(t)
      case Some(v) => Some(v as int)
      case None => None
  }

  /** The unsigned part: digits, optionally a point and at most two digits. */
  function ParseUnsigned(body: string): (r: Option<nat>)
  {
    var k := DigitRun(body, 0);
    UnsignedParts(body[..k], body[k..])
  }

  /** The unsigned part split after its leading digits `whole`. */
  function UnsignedParts(whole: string, rest: string): (r: Option<nat>)
    requires AllDigits(whole)
  {
    if rest == [] then
      if whole == [] then None else Some(DigitsValue(whole) * 100)
    else if rest[0] != '.' || !AllDigits(rest[1..]) || |rest| > 3 then None
    else
      var frac := rest[1..];
      if whole == [] && frac == [] then None
      else Some(DigitsValue(whole) * 100 + (if |frac| == 1 then DigitsValue(frac) * 10 else DigitsValue(frac)))
  }

  function Signed(neg: bool, v: nat): Cents { if neg then -(v as int) else v }

  /** The end of the run of digits of `s` starting at `i`. */
  function DigitRun(s: string, i: nat): (k: nat)
    requires i <= |s|
    ensures i <= k <= |s|
    ensures forall j :: i <= j < k ==> IsDigit(s[j])
    ensures k == |s| || !IsDigit(s[k])
    decreases |s| - i
  {
    if i < |s| && IsDigit(s[i]) then DigitRun(s, i + 1) else i
  }

  /** What the program writes with `:.2f`, `float()` reads back exactly. */
  lemma ParseFixed2(c: Cents)
    ensures ParseDecimal(Fixed2(c)) == Some(c)
  {
    if c < 0 {
      ParseFixedNegative(c);
    } else {
      ParseFixedPlain(c);
    }
  }

  lemma ParseFixedNegative(c: Cents)
    requires c < 0
    ensures ParseDecimal(Fixed2(c)) == Some(c)
  {
    FixedSign(c);
    ParseMagnitude(c, -c);
    ParseNegative(Fixed2(c), Magnitude2(c), -c, c);
  }

  lemma FixedSign(c: Cents)
    ensures Fixed2(c) == (if c < 0 then "-" + Magnitude2(c) else Magnitude2(c))
  {
  }

  lemma ParseFixedPlain(c: Cents)
    requires c >= 0
    ensures ParseDecimal(Fixed2(c)) == Some(c)
  {
    FixedSign(c);
    ParseMagnitude(c, c);
    ParsePlain(Fixed2(c), c);
  }

  lemma MagnitudeSplit(c: Cents)
    ensures Rupees(c) * 100 + Paise(c) == (if c < 0 then -c else c)
  {
  }

  /** The unsigned part starts and ends with a digit and is read exactly as
      the magnitude `v` of the amount. */
  lemma ParseMagnitude(c: Cents, v: nat)
    requires v == (if c < 0 then -c else c)
    ensures var m := Magnitude2(c);
      IsDigit(m[0]) && IsDigit(m[|m| - 1]) && ParseUnsigned(m) == Some(v)
  {
    MagnitudeSplit(c);
    var digits, frac := NatToString(Rupees(c)), TwoDigits(Paise(c));
    var m := Magnitude2(c);
    ParseBody(m, digits, frac, v);
    assert m[0] == digits[0];
    assert m[|m| - 1] == frac[1];
  }

  /** The unsigned part `digits.dd` is read as digits times 100 plus the fraction. */
  lemma ParseBody(body: string, digits: string, frac: string, v: nat)
    requires |digits| > 0 && AllDigits(digits) && |frac| == 2 && AllDigits(frac)
    requires body == digits + "." + frac
    requires v == DigitsValue(digits) * 100 + DigitsValue(frac)
    ensures ParseUnsigned(body) == Some(v)
  {
    DigitRunAt(body, |digits|);
    assert body[..|digits|] == digits;
    assert body[|digits|..] == "." + frac;
    PartsFixed(digits, "." + frac, v);
  }

  lemma PartsFixed(digits: string, rest: string, v: nat)
    requires |digits| > 0 && AllDigits(digits) && |rest| == 3 && rest[0] == '.' && AllDigits(rest[1..])
    requires v == DigitsValue(digits) * 100 + DigitsValue(rest[1..])
    ensures UnsignedParts(digits, rest) == Some(v)
  {
  }

  /** A numeral without sign or surrounding space parses as its unsigned body. */
  lemma ParsePlain(body: string, v: nat)
    requires |body| > 0 && IsDigit(body[0]) && IsDigit(body[|body| - 1])
    requires ParseUnsigned(body) == Some(v)
    ensures ParseDecimal(body) == Some(v as int)
  {
    StripOfTrimmed(body);
  }

  /** A numeral with a leading minus parses as the negated body. */
  lemma ParseNegative(t: string, body: string, v: nat, c: Cents)
    requires t == "-" + body
    requires |body| > 0 && IsDigit(body[0]) && IsDigit(body[|body| - 1])
    requires ParseUnsigned(body) == Some(v) && c == -(v as int)
    ensures ParseDecimal(t) == Some(c)
  {
    assert t[0] == '-' && t[|t| - 1] == body[|body| - 1];
    StripOfTrimmed(t);
    assert t[1..] == body;
  }

  lemma DigitRunAt(s: string, k: nat)
    requires k < |s| && !IsDigit(s[k])
    requires forall j :: 0 <= j < k ==> IsDigit(s[j])
    ensures DigitRun(s, 0) == k
  {
    DigitRunFrom(s, 0, k);
  }

  lemma {:induction false} DigitRunFrom(s: string, i: nat, k: nat)
    requires i <= k < |s| && !IsDigit(s[k])
    requires forall j :: i <= j < k ==> IsDigit(s[j])
    ensures DigitRun(s, i) == k
    decreases k - i
  {
    if i < k {
      DigitRunFrom(s, i + 1, k);
    }
  }

  /** Sum of a sequence of amounts. */
  function Sum(xs: seq<Cents>): Cents {
    if xs == [] then 0 else xs[0] + Sum(xs[1..])
  }

  lemma {:induction false} SumAppend(a: seq<Cents>, b: seq<Cents>)
    ensures Sum(a + b) == Sum(a) + Sum(b)
  {
    if a == [] {
      assert a + b == b;
    } else {
      assert (a + b)[1..] == a[1..] + b;
      SumAppend(a[1..], b);
    }
  }

  /** A total does not depend on the order the amounts arrive in. */
  lemma {:induction false} SumPermutation(a: seq<Cents>, b: seq<Cents>)
    requires multiset(a) == multiset(b)
    ensures Sum(a) == Sum(b)
    decreases |a|
  {
    if a == [] {
      assert |b| == |multiset(b)| == 0;
    } else {
      var x := a[0];
      assert x in multiset(b);
      var i :| 0 <= i < |b| && b[i] == x;
      var b' := b[..i] + b[i + 1..];
      assert b == b[..i] + [x] + b[i + 1..];
      assert multiset(b') == multiset(b) - multiset{x};
      assert a == [x] + a[1..];
      assert multiset(a[1..]) == multiset(a) - multiset{x};
      SumPermutation(a[1..], b');
      SumWithout(b, i);
    }
  }

  lemma SumWithout(b: seq<Cents>, i: nat)
    requires i < |b|
    ensures Sum(b) == b[i] + Sum(b[..i] + b[i + 1..])
  {
    var l, r := b[..i], b[i + 1..];
    assert b == l + ([b[i]] + r);
    SumAppend(l, [b[i]] + r);
    assert ([b[i]] + r)[1..] == r;
    SumAppend(l, r);
  }
}
