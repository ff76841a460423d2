/** Gregorian dates and the two `strptime` formats the program reads:
    `%d/%m/%Y` (fee-line dates) and `%Y-%m-%d %H:%M:%S` (transaction times),
    with the field widths CPython's `_strptime` accepts. */
module Calendar {
  import opened Options
  import opened Strings

  datatype Date = Date(day: nat, month: nat, year: nat)

  datatype Timestamp = Timestamp(date: Date, hour: nat, minute: nat, second: nat)

  predicate IsLeap(y: nat) {
    y % 4 == 0 && (y % 100 != 0 || y % 400 == 0)
  }

  function DaysInMonth(y: nat, m: nat): (n: nat)
    requires 1 <= m <= 12
    ensures 28 <= n <= 31
  {
    if m == 2 then (if IsLeap(y) then 29 else 28)
    else if m == 4 || m == 6 || m == 9 || m == 11 then 30
    else 31
  }

  /** A real calendar day (Python's `date` also demands year <= 9999, see `InRange`). */
  predicate Valid(d: Date) {
    d.year >= 1 && 1 <= d.month <= 12 && 1 <= d.day <= DaysInMonth(d.year, d.month)
  }

  /** The years Python's `datetime` can represent. */
  predicate InRange(d: Date) {
    Valid(d) && d.year <= 9999
  }

  function DaysInYear(y: nat): nat { if IsLeap(y) then 366 else 365 }

  function DaysBeforeYear(y: nat): nat
    requires y >= 1
  {
    if y == 1 then 0 else DaysBeforeYear(y - 1) + DaysInYear(y - 1)
  }

  function DaysBeforeMonth(y: nat, m: nat): nat
    requires 1 <= m <= 12
  {
    if m == 1 then 0 else DaysBeforeMonth(y, m - 1) + DaysInMonth(y, m - 1)
  }

  /** Python's `date.toordinal()`: 1 for 1 January of year 1, counting every day. */
  function Ordinal(d: Date): nat
    requires Valid(d)
  {
    DaysBeforeYear(d.year) + DaysBeforeMonth(d.year, d.month) + d.day
  }

  /** The calendar day after `d`. */
  function NextDay(d: Date): (r: Date)
    requires Valid(d)
    ensures Valid(r)
    ensures Ordinal(r) == Ordinal(d) + 1
  {
    if d.day < DaysInMonth(d.year, d.month) then Date(d.day + 1, d.month, d.year)
    else if d.month < 12 then Date(1, d.month + 1, d.year)
    else
      YearLength(d.year);
      Date(1, 1, d.year + 1)
  }

  /** The twelve months add up to the year. */
  lemma YearLength(y: nat)
    ensures DaysBeforeMonth(y, 12) + 31 == DaysInYear(y)
  {
    assert DaysBeforeMonth(y, 2) == 31;
    assert DaysBeforeMonth(y, 3) == 31 + DaysInMonth(y, 2);
    assert DaysBeforeMonth(y, 4) == 62 + DaysInMonth(y, 2);
    assert DaysBeforeMonth(y, 5) == 92 + DaysInMonth(y, 2);
    assert DaysBeforeMonth(y, 6) == 123 + DaysInMonth(y, 2);
    assert DaysBeforeMonth(y, 7) == 153 + DaysInMonth(y, 2);
    assert DaysBeforeMonth(y, 8) == 184 + DaysInMonth(y, 2);
    assert DaysBeforeMonth(y, 9) == 215 + DaysInMonth(y, 2);
    assert DaysBeforeMonth(y, 10) == 245 + DaysInMonth(y, 2);
    assert DaysBeforeMonth(y, 11) == 276 + DaysInMonth(y, 2);
    assert DaysBeforeMonth(y, 12) == 306 + DaysInMonth(y, 2);
  }

  /** Distinct days have distinct ordinals, so the ordinal is a faithful day count. */
  lemma OrdinalInjective(a: Date, b: Date)
    requires Valid(a) && Valid(b) && Ordinal(a) == Ordinal(b)
    ensures a == b
  {
    if a.year != b.year {
      if a.year < b.year { YearOrdinalBound(a, b); } else { YearOrdinalBound(b, a); }
    } else if a.month != b.month {
      if a.month < b.month { MonthOrdinalBound(a, b); } else { MonthOrdinalBound(b, a); }
    }
  }

  lemma MonthOrdinalBound(a: Date, b: Date)
    requires Valid(a) && Valid(b) && a.year == b.year && a.month < b.month
    ensures Ordinal(a) < Ordinal(b)
  {
    MonthStartGrows(a.year, a.month, b.month);
  }

  lemma {:induction false} MonthStartGrows(y: nat, m: nat, n: nat)
    requires 1 <= m < n <= 12
    ensures DaysBeforeMonth(y, n) >= DaysBeforeMonth(y, m) + DaysInMonth(y, m)
    decreases n - m
  {
    if m + 1 < n {
      MonthStartGrows(y, m + 1, n);
    }
  }

  lemma YearOrdinalBound(a: Date, b: Date)
    requires Valid(a) && Valid(b) && a.year < b.year
    ensures Ordinal(a) < Ordinal(b)
  {
    if a.month < 12 {
      MonthStartGrows(a.year, a.month, 12);
    }
    YearLength(a.year);
    YearStartGrows(a.year, b.year);
  }

  lemma {:induction false} YearStartGrows(y: nat, z: nat)
    requires 1 <= y < z
    ensures DaysBeforeYear(z) >= DaysBeforeYear(y) + DaysInYear(y)
    decreases z - y
  {
    if y + 1 < z {
      YearStartGrows(y + 1, z);
    }
  }

  /** `date + timedelta(days=1)`, which raises OverflowError past 31/12/9999. */
  function AddOneDay(d: Date): (r: Option<Date>)
    requires InRange(d)
    ensures r.Some? <==> d != Date(31, 12, 9999)
    ensures r.Some? ==> InRange(r.value) && r.value == NextDay(d)
  {
    var n := NextDay(d);
    if n.year > 9999 then None else Some(n)
  }

  // ---- strftime ----

  /** `strftime("%d/%m/%Y")` */
  function FormatDMY(d: Date): string {
    PadNat(d.day, 2) + "/" + PadNat(d.month, 2) + "/" + PadNat(d.year, 4)
  }

  /** `strftime("%d%m%Y")` */
  function FormatDMYCompact(d: Date): string {
    PadNat(d.day, 2) + PadNat(d.month, 2) + PadNat(d.year, 4)
  }

  /** `strftime("%d/%m")` */
  function FormatDM(d: Date): string {
    PadNat(d.day, 2) + "/" + PadNat(d.month, 2)
  }

  // ---- strptime ----

  /** The end of the run of ASCII digits of `s` that starts at `i`. */
  function DigitsEnd(s: string, i: nat): (k: nat)
    requires i <= |s|
    ensures i <= k <= |s|
    ensures AllDigits(s[i..k])
    ensures k == |s| || !IsDigit(s[k])
    decreases |s| - i
  {
    if i < |s| && IsDigit(s[i]) then DigitsEnd(s, i + 1) else i
  }

  /** A one- or two-digit field with a value in `lo..hi` at position `i`: what the
      alternations `_strptime` uses for `%d`, `%m`, `%H`, `%M` and `%S` accept when
      the field is followed by a non-digit. Gives the value and the end position. */
  function ShortField(s: string, i: nat, lo: nat, hi: nat): (r: Option<(nat, nat)>)
    requires i <= |s|
    ensures r.Some? ==> i < r.value.1 <= i + 2 && r.value.1 <= |s| && lo <= r.value.0 <= hi
  {
    var k := DigitsEnd(s, i);
    if k == i || k > i + 2 then None
    else
      var v := DigitsValue(s[i..k]);
      if lo <= v <= hi then Some((v, k)) else None
  }

  /** `%d`: `3[01]|[12]\d|0[1-9]|[1-9]| [1-9]` — the last alternative lets a
      space stand for the leading zero. */
  function DayField(s: string, i: nat): (r: Option<(nat, nat)>)
    requires i <= |s|
    ensures r.Some? ==> i < r.value.1 <= |s| && 1 <= r.value.0 <= 31
  {
    var f := ShortField(s, i, 1, 31);
    if f.Some? then f
    else if i + 1 < |s| && s[i] == ' ' && '1' <= s[i + 1] <= '9' then
      Some((DigitValue(s[i + 1]), i + 2))
    else None
  }

  /** `%Y`: exactly four digits. */
  function YearField(s: string, i: nat): (r: Option<(nat, nat)>)
    requires i <= |s|
    ensures r.Some? ==> r.value.1 == i + 4 <= |s|
  {
    if i + 4 <= |s| && AllDigits(s[i..i + 4]) then Some((DigitsValue(s[i..i + 4]), i + 4)) else None
  }

  /** The separator character `c` at position `i`. */
  predicate SepAt(s: string, i: nat, c: char) { i < |s| && s[i] == c }

  /** The end of a non-empty whitespace run at `i` (a space in a `strptime`
      format matches `\s+`). */
  function SpaceRun(s: string, i: nat): (k: nat)
    requires i <= |s|
    ensures i <= k <= |s|
    ensures forall j :: i <= j < k ==> IsSpace(s[j])
    ensures k == |s| || !IsSpace(s[k])
    decreases |s| - i
  {
    if i < |s| && IsSpace(s[i]) then SpaceRun(s, i + 1) else i
  }

  /** `datetime.strptime(s, "%d/%m/%Y").date()`: `None` where Python raises
      ValueError (no match, unconverted data left over, or no such day). */
  function ParseDMY(s: string): (r: Option<Date>)
    ensures r.Some? ==> InRange(r.value)
  {
    match DayField(s, 0)
    case None => None
    case Some((d, i)) =>
      if !SepAt(s, i, '/') then None
      else match ShortField(s, i + 1, 1, 12)
      case None => None
      case Some((m, j)) =>
        if !SepAt(s, j, '/') then None
        else match YearField(s, j + 1)
        case None => None
        case Some((y, k)) =>
          var date := Date(d, m, y);
          if k == |s| && y <= 9999 && Valid(date) then Some(date) else None
  }

  /** `datetime.strptime(s, "%Y-%m-%d %H:%M:%S")`: `None` where Python raises. */
  function ParseTimestamp(s: string): (r: Option<Timestamp>)
    ensures r.Some? ==> InRange(r.value.date) && r.value.hour < 24 && r.value.minute < 60 && r.value.second < 60
  {
    match YearField(s, 0)
    case None => None
    case Some((y, i1)) =>
      if !SepAt(s, i1, '-') then None
      else match ShortField(s, i1 + 1, 1, 12)
      case None => None
      case Some((m, i2)) =>
        if !SepAt(s, i2, '-') then None
        else match DayField(s, i2 + 1)
        case None => None
        case Some((d, i3)) =>
          var i4 := SpaceRun(s, i3);
          if i4 == i3 then None
          else match ShortField(s, i4, 0, 23)
          case None => None
          case Some((hh, i5)) =>
            if !SepAt(s, i5, ':') then None
            else match ShortField(s, i5 + 1, 0, 59)
            case None => None
            case Some((mm, i6)) =>
              if !SepAt(s, i6, ':') then None
              else match ShortField(s, i6 + 1, 0, 59)
              case None => None
              case Some((ss, i7)) =>
                var date := Date(d, m, y);
                if i7 == |s| && y <= 9999 && Valid(date) then Some(Timestamp(date, hh, mm, ss)) else None
  }

  /** Seconds since `datetime.min` (0001-01-01 00:00:00): the order in which
      Python compares datetimes. */
  function Rank(t: Timestamp): (n: nat)
    requires Valid(t.date)
  {
    (Ordinal(t.date) - 1) * 86400 + t.hour * 3600 + t.minute * 60 + t.second
  }

  /** A timestamp `strptime` can produce: a real day and a time of day on the clock. */
  predicate Clocked(t: Timestamp) {
    Valid(t.date) && t.hour < 24 && t.minute < 60 && t.second < 60
  }

  /** `datetime.min`, the key `safe_parse_time` falls back to. */
  const MinTime := Timestamp(Date(1, 1, 1), 0, 0, 0)

  /** Calendar order of days: by year, then month, then day. */
  predicate DayBefore(a: Date, b: Date) {
    a.year < b.year || (a.year == b.year && (a.month < b.month || (a.month == b.month && a.day < b.day)))
  }

  /** Python's `datetime` order: by day, then hour, minute and second. */
  predicate Earlier(a: Timestamp, b: Timestamp) {
    || DayBefore(a.date, b.date)
    || (a.date == b.date && (a.hour < b.hour || (a.hour == b.hour
        && (a.minute < b.minute || (a.minute == b.minute && a.second < b.second)))))
  }

  /** An earlier day has a smaller ordinal. */
  lemma OrdinalOrder(a: Date, b: Date)
    requires Valid(a) && Valid(b) && DayBefore(a, b)
    ensures Ordinal(a) < Ordinal(b)
  {
    if a.year < b.year {
      YearOrdinalBound(a, b);
    } else if a.month < b.month {
      MonthOrdinalBound(a, b);
    }
  }

  /** A whole day of seconds separates any time on one day from the next day. */
  lemma DaySeconds(x: int, y: int, u: int, v: int)
    requires 0 <= x < y && 0 <= u < 86400 && 0 <= v
    ensures x * 86400 + u < y * 86400 + v
  {
  }

  /** `Rank` orders timestamps exactly as Python compares datetimes: earlier
      times rank lower, and equal ranks mean the same time. */
  lemma RankOrder(a: Timestamp, b: Timestamp)
    requires Clocked(a) && Clocked(b)
    ensures Earlier(a, b) <==> Rank(a) < Rank(b)
    ensures Rank(a) == Rank(b) <==> a == b
  {
    if DayBefore(a.date, b.date) {
      RankAcrossDays(a, b);
    } else if DayBefore(b.date, a.date) {
      RankAcrossDays(b, a);
    } else {
      assert a.date == b.date;
    }
  }

  lemma RankAcrossDays(a: Timestamp, b: Timestamp)
    requires Clocked(a) && Clocked(b) && DayBefore(a.date, b.date)
    ensures Rank(a) < Rank(b) && !Earlier(b, a)
  {
    OrdinalOrder(a.date, b.date);
    DaySeconds(Ordinal(a.date) - 1, Ordinal(b.date) - 1,
      a.hour * 3600 + a.minute * 60 + a.second, b.hour * 3600 + b.minute * 60 + b.second);
  }

  /** Only `datetime.min` itself has rank 0. */
  lemma RankZero(t: Timestamp)
    requires Clocked(t)
    ensures Rank(t) == 0 <==> t == MinTime
  {
    RankOrder(t, MinTime);
  }

  /** A day printed with `%d/%m/%Y` is read back by `strptime` with the same format. */
  lemma ParseFormatDMY(d: Date)
    requires InRange(d)
    ensures ParseDMY(FormatDMY(d)) == Some(d)
  {
    var s := FormatDMY(d);
    var dd, mm, yy := PadNat(d.day, 2), PadNat(d.month, 2), PadNat(d.year, 4);
    PadWidth(d.day, 2);
    PadWidth(d.month, 2);
    PadWidth(d.year, 4);
    FieldsParse(s, dd, mm, yy, d);
  }

  /** `dd/mm/yyyy` with fields that denote the day, month and year of `d`. */
  lemma FieldsParse(s: string, dd: string, mm: string, yy: string, d: Date)
    requires InRange(d) && s == dd + "/" + mm + "/" + yy
    requires |dd| == 2 && AllDigits(dd) && DigitsValue(dd) == d.day
    requires |mm| == 2 && AllDigits(mm) && DigitsValue(mm) == d.month
    requires |yy| == 4 && AllDigits(yy) && DigitsValue(yy) == d.year
    ensures ParseDMY(s) == Some(d)
  {
    DMYLayout(s, dd, mm, yy);
    ShortFieldAt(s, 0, dd, 1, 31, d.day);
    ShortFieldAt(s, 3, mm, 1, 12, d.month);
    ParseDMYOf(s, d);
  }

  /** Where the fields of `dd/mm/yyyy` sit. */
  lemma DMYLayout(s: string, dd: string, mm: string, yy: string)
    requires |dd| == 2 && |mm| == 2 && |yy| == 4 && s == dd + "/" + mm + "/" + yy
    ensures |s| == 10 && s[0..2] == dd && s[2] == '/' && s[3..5] == mm && s[5] == '/' && s[6..10] == yy
  {
  }

  /** The text `dd/mm/yyyy` whose fields read as the days of `d`. */
  lemma ParseDMYOf(s: string, d: Date)
    requires InRange(d) && |s| == 10 && s[2] == '/' && s[5] == '/'
    requires ShortField(s, 0, 1, 31) == Some((d.day, 2))
    requires ShortField(s, 3, 1, 12) == Some((d.month, 5))
    requires AllDigits(s[6..10]) && DigitsValue(s[6..10]) == d.year
    ensures ParseDMY(s) == Some(d)
  {
  }

  /** A two-digit field followed by a non-digit reads as its value. */
  lemma ShortFieldAt(s: string, i: nat, w: string, lo: nat, hi: nat, v: nat)
    requires |w| == 2 && AllDigits(w) && DigitsValue(w) == v && lo <= v <= hi
    requires i + 2 < |s| && s[i..i + 2] == w && !IsDigit(s[i + 2])
    ensures ShortField(s, i, lo, hi) == Some((v, i + 2))
  {
    assert s[i] == w[0] && s[i + 1] == w[1];
    DigitsEndAt(s, i, i + 2);
  }

  /** `n` padded to `w` digits has exactly `w` digits when `n` has at most `w`. */
  lemma PadWidth(n: nat, w: nat)
    requires w >= 1 && n < Pow10(w)
    ensures |PadNat(n, w)| == w
  {
    NatToStringLength(n, w);
  }

  lemma {:induction false} NatToStringLength(n: nat, w: nat)
    requires w >= 1 && n < Pow10(w)
    ensures |NatToString(n)| <= w
    decreases n
  {
    if n >= 10 {
      NatToStringLength(n / 10, w - 1);
    }
  }

  lemma DigitsEndAt(s: string, i: nat, k: nat)
    requires i <= k < |s| && !IsDigit(s[k])
    requires forall j :: i <= j < k ==> IsDigit(s[j])
    ensures DigitsEnd(s, i) == k
    decreases k - i
  {
    if i < k {
      DigitsEndAt(s, i + 1, k);
    }
  }
}
