/** Timestamps as text: RFC 3339 (section 5.6) as written for sessions, and SQLite's
    "YYYY-MM-DD HH:MM:SS" as written for grants. An instant is the number of whole seconds
    since 0000-01-01T00:00:00Z in the proleptic Gregorian calendar. */
module TimeText {

  // ---- bytewise comparison ----

  /** How SQLite's BINARY collation orders two texts. */
  predicate Less(s: string, t: string) {
    t != "" && (s == "" || s[0] < t[0] || (s[0] == t[0] && Less(s[1..], t[1..])))
  }

  lemma {:induction false} LessConcat(a: string, b: string, c: string, d: string)
    requires |a| == |c|
    ensures Less(a + b, c + d) <==> Less(a, c) || (a == c && Less(b, d))
    decreases |a|
  {
    if a == "" {
      assert a + b == b && c + d == d;
    } else {
      assert (a + b)[1..] == a[1..] + b && (c + d)[1..] == c[1..] + d;
      assert a == c <==> a[0] == c[0] && a[1..] == c[1..] by {
        assert a == [a[0]] + a[1..] && c == [c[0]] + c[1..];
      }
      LessConcat(a[1..], b, c[1..], d);
    }
  }

  lemma {:induction false} LessIrreflexive(s: string)
    ensures !Less(s, s)
  {
    if s != "" { LessIrreflexive(s[1..]); }
  }

  /** Texts of one length that compare like the numbers they stand for. */
  predicate Like(s: string, t: string, m: int, n: int) {
    |s| == |t| && (Less(s, t) <==> m < n) && (s == t <==> m == n)
  }

  /** Two such fields side by side compare like the pair of numbers. */
  lemma LikePair(s: string, t: string, m: int, n: int, sep: string, s': string, t': string, m': int, n': int)
    requires Like(s, t, m, n) && Like(s', t', m', n')
    ensures |s + sep + s'| == |t + sep + t'|
    ensures Less(s + sep + s', t + sep + t') <==> m < n || (m == n && m' < n')
    ensures s + sep + s' == t + sep + t' <==> m == n && m' == n'
  {
    LessConcat(s + sep, s', t + sep, t');
    LessConcat(s, sep, t, sep);
    LessIrreflexive(sep);
    if s + sep + s' == t + sep + t' {
      assert s == (s + sep + s')[..|s|] == t;
      assert s' == (s + sep + s')[|s + sep|..] == t';
    }
    assert s + sep == t + sep <==> s == t by {
      if s + sep == t + sep { assert s == (s + sep)[..|s|] == t; }
    }
  }

  // ---- digits ----

  function Pow10(w: nat): nat {
    if w == 0 then 1 else 10 * Pow10(w - 1)
  }

  function Digit(n: nat): char
    requires n < 10
  {
    ('0' as int + n) as char
  }

  function Digits(n: nat, w: nat): (s: string)
    ensures |s| == w
  {
    if w == 0 then "" else Digits(n / 10, w - 1) + [Digit(n % 10)]
  }

  function Read(s: string): nat {
    if s == "" then 0
    else 10 * Read(s[..|s| - 1]) + if '0' <= s[|s| - 1] <= '9' then s[|s| - 1] as int - '0' as int else 0
  }

  lemma {:induction false} ReadDigits(n: nat, w: nat)
    requires n < Pow10(w)
    ensures Read(Digits(n, w)) == n
  {
    if w > 0 {
      var s := Digits(n, w);
      assert s[..|s| - 1] == Digits(n / 10, w - 1);
      ReadDigits(n / 10, w - 1);
    }
  }

  lemma {:induction false} DigitsLike(m: nat, n: nat, w: nat)
    requires m < Pow10(w) && n < Pow10(w)
    ensures Like(Digits(m, w), Digits(n, w), m, n)
  {
    if w > 0 {
      var s, t, c, d := Digits(m / 10, w - 1), Digits(n / 10, w - 1), [Digit(m % 10)], [Digit(n % 10)];
      DigitsLike(m / 10, n / 10, w - 1);
      assert Less(c, d) <==> m % 10 < n % 10;
      LikePair(s, t, m / 10, n / 10, "", c, d, m % 10, n % 10);
      assert s + "" + c == Digits(m, w) && t + "" + d == Digits(n, w);
    }
  }

  // ---- the calendar ----

  predicate Leap(y: nat) {
    y % 4 == 0 && (y % 100 != 0 || y % 400 == 0)
  }

  function MonthDays(y: nat, m: nat): nat {
    if m == 2 then (if Leap(y) then 29 else 28)
    else if m == 4 || m == 6 || m == 9 || m == 11 then 30 else 31
  }

  lemma MonthLengths(y: nat, m: nat)
    requires 1 <= m <= 12
    ensures MonthDays(y, m) ==
            [31, if Leap(y) then 29 else 28, 31, 30, 31, 30, 31, 31, 30, 31, 30, 31][m - 1]
  {
  }

  function YearDays(y: nat): nat {
    if Leap(y) then 366 else 365
  }

  /** The days of year y from month m on. */
  function DaysFrom(y: nat, m: nat): nat
    decreases 13 - m
  {
    if m > 12 then 0 else MonthDays(y, m) + DaysFrom(y, m + 1)
  }

  lemma YearIsItsMonths(y: nat)
    ensures DaysFrom(y, 1) == YearDays(y)
  {
    assert DaysFrom(y, 10) == 92;
    assert DaysFrom(y, 7) == 184;
    assert DaysFrom(y, 4) == 275;
  }

  datatype Year = Year(y: nat, day: nat)
  datatype Month = Month(m: nat, day: nat)

  /** The year that day falls into, day 0 being the first of year y. */
  function YearOf(day: nat, y: nat): (r: Year)
    ensures r.day < YearDays(r.y)
  {
    if day < YearDays(y) then Year(y, day) else YearOf(day - YearDays(y), y + 1)
  }

  function MonthOf(day: nat, y: nat, m: nat): (r: Month)
    requires 1 <= m && day < DaysFrom(y, m)
    ensures m <= r.m <= 12 && r.day < MonthDays(y, r.m)
    decreases 13 - m
  {
    if day < MonthDays(y, m) then Month(m, day) else MonthOf(day - MonthDays(y, m), y, m + 1)
  }

  /** The month and day of the month of a day of a year. */
  function MonthIn(y: Year): (m: Month)
    requires y.day < YearDays(y.y)
    ensures 1 <= m.m <= 12 && m.day < MonthDays(y.y, m.m)
  {
    YearIsItsMonths(y.y);
    MonthOf(y.day, y.y, 1)
  }

  lemma {:induction false} YearsInOrder(a: nat, b: nat, y: nat)
    requires a < b
    ensures YearOf(a, y).y < YearOf(b, y).y || (YearOf(a, y).y == YearOf(b, y).y && YearOf(a, y).day < YearOf(b, y).day)
    decreases a
  {
    if a >= YearDays(y) {
      YearsInOrder(a - YearDays(y), b - YearDays(y), y + 1);
    } else if b >= YearDays(y) {
      YearAtLeast(b - YearDays(y), y + 1);
    }
  }

  lemma {:induction false} YearAtLeast(day: nat, y: nat)
    ensures YearOf(day, y).y >= y
    decreases day
  {
    if day >= YearDays(y) { YearAtLeast(day - YearDays(y), y + 1); }
  }

  lemma MonthStep(day: nat, y: nat, m: nat)
    requires 1 <= m && day < DaysFrom(y, m)
    ensures m <= 12
    ensures day < MonthDays(y, m) ==> MonthOf(day, y, m) == Month(m, day)
    ensures day >= MonthDays(y, m) ==> day - MonthDays(y, m) < DaysFrom(y, m + 1)
                                       && MonthOf(day, y, m) == MonthOf(day - MonthDays(y, m), y, m + 1)
                                       && MonthOf(day, y, m).m > m
  {
  }

  lemma {:induction false} MonthsInOrder(a: nat, b: nat, y: nat, m: nat)
    requires 1 <= m && a < b < DaysFrom(y, m)
    ensures MonthOf(a, y, m).m < MonthOf(b, y, m).m
            || (MonthOf(a, y, m).m == MonthOf(b, y, m).m && MonthOf(a, y, m).day < MonthOf(b, y, m).day)
    decreases 13 - m
  {
    MonthStep(a, y, m);
    MonthStep(b, y, m);
    if a >= MonthDays(y, m) {
      MonthsInOrder(a - MonthDays(y, m), b - MonthDays(y, m), y, m + 1);
    }
  }

  /** The day number of the first of year y, from the first of year from. */
  function YearStart(from: nat, y: nat): nat
    requires from <= y
    decreases y - from
  {
    if from == y then 0 else YearDays(from) + YearStart(from + 1, y)
  }

  function MonthStart(y: nat, from: nat, m: nat): nat
    requires from <= m
    decreases m - from
  {
    if from == m then 0 else MonthDays(y, from) + MonthStart(y, from + 1, m)
  }

  lemma {:induction false} YearBack(day: nat, y: nat)
    ensures YearOf(day, y).y >= y && YearStart(y, YearOf(day, y).y) + YearOf(day, y).day == day
    decreases day
  {
    if day >= YearDays(y) { YearBack(day - YearDays(y), y + 1); }
  }

  lemma {:induction false} MonthBack(day: nat, y: nat, m: nat)
    requires 1 <= m && day < DaysFrom(y, m)
    ensures MonthStart(y, m, MonthOf(day, y, m).m) + MonthOf(day, y, m).day == day
    decreases 13 - m
  {
    if day >= MonthDays(y, m) { MonthBack(day - MonthDays(y, m), y, m + 1); }
  }

  // ---- the text ----

  const DAY: nat := 86400

  /** The number of the first day of the year 10000. */
  const YEAR_10000: nat := 3652425

  datatype Style = Rfc3339 | Sqlite

  function Separator(style: Style): string {
    if style.Rfc3339? then "T" else " "
  }

  function Zone(style: Style): string {
    if style.Rfc3339? then "Z" else ""
  }

  /** The days before the first of year y, counting leap days by their rule. */
  function DaysBefore(y: nat): nat {
    365 * y + (y + 3) / 4 - (y + 99) / 100 + (y + 399) / 400
  }

  /** The instants of the years 0 to 9999, which four digits can write. */
  predicate InRange(t: nat) {
    t < YEAR_10000 * DAY
  }

  lemma FourStep(y: nat)
    ensures (y + 4) / 4 == (y + 3) / 4 + if y % 4 == 0 then 1 else 0
  {
  }

  lemma HundredStep(y: nat)
    ensures (y + 100) / 100 == (y + 99) / 100 + if y % 100 == 0 then 1 else 0
  {
  }

  lemma FourHundredStep(y: nat)
    ensures (y + 400) / 400 == (y + 399) / 400 + if y % 400 == 0 then 1 else 0
  {
  }

  lemma Centuries(y: nat)
    ensures y % 400 == 0 ==> y % 100 == 0
    ensures y % 100 == 0 ==> y % 4 == 0
  {
    if y % 400 == 0 { assert y == 100 * (4 * (y / 400)); }
    if y % 100 == 0 { assert y == 4 * (25 * (y / 100)); }
  }

  lemma YearDaysByRule(y: nat)
    ensures YearDays(y) == 365 + (if y % 4 == 0 then 1 else 0) - (if y % 100 == 0 then 1 else 0) +
            if y % 400 == 0 then 1 else 0
  {
    Centuries(y);
  }

  lemma DaysBeforeNext(y: nat)
    ensures DaysBefore(y + 1) == DaysBefore(y) + YearDays(y)
  {
    FourStep(y);
    HundredStep(y);
    FourHundredStep(y);
    YearDaysByRule(y);
  }

  lemma {:induction false} FourDigitYears(day: nat, y: nat)
    requires y <= 9999 && DaysBefore(y) + day < YEAR_10000
    ensures YearOf(day, y).y <= 9999
    decreases day
  {
    if day >= YearDays(y) {
      DaysBeforeNext(y);
      FourDigitYears(day - YearDays(y), y + 1);
    }
  }

  function FieldsText(y: nat, m: nat, d: nat): (s: string)
    ensures |s| == 10
  {
    Digits(y, 4) + "-" + (Digits(m, 2) + "-" + Digits(d, 2))
  }

  function DateText(day: nat): (s: string)
    ensures |s| == 10
  {
    var y := YearOf(day, 0);
    var m := MonthIn(y);
    FieldsText(y.y, m.m, m.day + 1)
  }

  function ClockFieldsText(h: nat, m: nat, s: nat): (r: string)
    ensures |r| == 8
  {
    Digits(h, 2) + ":" + (Digits(m, 2) + ":" + Digits(s, 2))
  }

  function ClockText(t: nat): (r: string)
    ensures |r| == 8
  {
    ClockFieldsText(t / 3600, t / 60 % 60, t % 60)
  }

  function Text(t: nat, style: Style): string {
    DateText(t / DAY) + Separator(style) + ClockText(t % DAY) + Zone(style)
  }

  predicate AllDigits(s: string) {
    forall i :: 0 <= i < |s| ==> '0' <= s[i] <= '9'
  }

  lemma {:induction false} DigitsAreDigits(n: nat, w: nat)
    ensures AllDigits(Digits(n, w))
  {
    if w > 0 { DigitsAreDigits(n / 10, w - 1); }
  }

  /** Three fields of digits between two separators. */
  predicate Fields(s: string, w: nat, sep: char) {
    && |s| == w + 6 && s[w] == sep && s[w + 3] == sep
    && AllDigits(s[..w]) && AllDigits(s[w + 1..w + 3]) && AllDigits(s[w + 4..])
  }

  lemma FieldsAre(a: nat, w: nat, b: nat, c: nat, sep: char)
    ensures Fields(Digits(a, w) + [sep] + (Digits(b, 2) + [sep] + Digits(c, 2)), w, sep)
  {
    var x, y, z := Digits(a, w), Digits(b, 2), Digits(c, 2);
    var s := x + [sep] + (y + [sep] + z);
    DigitsAreDigits(a, w);
    DigitsAreDigits(b, 2);
    DigitsAreDigits(c, 2);
    assert s[..w] == x && s[w + 1..w + 3] == y && s[w + 4..] == z;
  }

  /** YYYY-MM-DDTHH:MM:SSZ for RFC 3339, a blank for the T and no Z for SQLite. */
  lemma TextShape(t: nat, style: Style)
    ensures var s := Text(t, style);
            && |s| == (if style == Rfc3339 then 20 else 19)
            && Fields(s[..10], 4, '-') && Fields(s[11..19], 2, ':')
            && s[10] == (if style == Rfc3339 then 'T' else ' ') && (style == Rfc3339 ==> s[19] == 'Z')
  {
    var day, clock := DateText(t / DAY), ClockText(t % DAY);
    var y := YearOf(t / DAY, 0);
    FieldsAre(y.y, 4, MonthIn(y).m, MonthIn(y).day + 1, '-');
    FieldsAre(t % DAY / 3600, 2, t % DAY / 60 % 60, t % DAY % 60, ':');
    assert Text(t, style)[..10] == day && Text(t, style)[11..19] == clock;
  }

  lemma Powers()
    ensures Pow10(2) == 100 && Pow10(4) == 10000
  {
  }

  lemma TwoFieldsLike(a: nat, b: nat, c: nat, d: nat, sep: string)
    requires a < 100 && b < 100 && c < 100 && d < 100
    ensures Like(Digits(a, 2) + sep + Digits(c, 2), Digits(b, 2) + sep + Digits(d, 2), 100 * a + c, 100 * b + d)
  {
    Powers();
    DigitsLike(a, b, 2);
    DigitsLike(c, d, 2);
    LikePair(Digits(a, 2), Digits(b, 2), a, b, sep, Digits(c, 2), Digits(d, 2), c, d);
  }

  lemma ClockFields(t: nat)
    requires t < DAY
    ensures t == 3600 * (t / 3600) + 60 * (t / 60 % 60) + t % 60
    ensures t / 3600 < 24 && t / 60 % 60 < 60 && t % 60 < 60
  {
    assert t / 3600 == t / 60 / 60;
  }

  /** Hours first, then minutes and seconds: the order of the second of the day. */
  lemma ClockOrder(h: nat, m: nat, s: nat, h': nat, m': nat, s': nat)
    requires m < 60 && m' < 60 && s < 60 && s' < 60
    ensures 3600 * h + 60 * m + s < 3600 * h' + 60 * m' + s' <==> h < h' || (h == h' && 100 * m + s < 100 * m' + s')
    ensures 3600 * h + 60 * m + s == 3600 * h' + 60 * m' + s' <==> h == h' && 100 * m + s == 100 * m' + s'
  {
  }

  lemma ClockTextsLike(h: nat, m: nat, s: nat, h': nat, m': nat, s': nat)
    requires h < 100 && h' < 100 && m < 100 && m' < 100 && s < 100 && s' < 100
    ensures Less(ClockFieldsText(h, m, s), ClockFieldsText(h', m', s')) <==>
            h < h' || (h == h' && 100 * m + s < 100 * m' + s')
    ensures ClockFieldsText(h, m, s) == ClockFieldsText(h', m', s') <==> h == h' && 100 * m + s == 100 * m' + s'
  {
    Powers();
    DigitsLike(h, h', 2);
    TwoFieldsLike(m, m', s, s', ":");
    LikePair(Digits(h, 2), Digits(h', 2), h, h', ":", Digits(m, 2) + ":" + Digits(s, 2),
             Digits(m', 2) + ":" + Digits(s', 2),
             100 * m + s, 100 * m' + s');
    assert ClockFieldsText(h, m, s) == Digits(h, 2) + ":" + (Digits(m, 2) + ":" + Digits(s, 2));
    assert ClockFieldsText(h', m', s') == Digits(h', 2) + ":" + (Digits(m', 2) + ":" + Digits(s', 2));
  }

  lemma ClockLike(a: nat, b: nat)
    requires a < DAY && b < DAY
    ensures Like(ClockText(a), ClockText(b), a, b)
  {
    ClockFields(a);
    ClockFields(b);
    ClockTextsLike(a / 3600, a / 60 % 60, a % 60, b / 3600, b / 60 % 60, b % 60);
    ClockOrder(a / 3600, a / 60 % 60, a % 60, b / 3600, b / 60 % 60, b % 60);
  }

  lemma FieldsLess(y: nat, m: nat, d: nat, y': nat, m': nat, d': nat)
    requires y <= 9999 && y' <= 9999 && m < 100 && m' < 100 && d < 100 && d' < 100
    requires y < y' || (y == y' && (m < m' || (m == m' && d < d')))
    ensures Less(FieldsText(y, m, d), FieldsText(y', m', d'))
  {
    Powers();
    DigitsLike(y, y', 4);
    TwoFieldsLike(m, m', d, d', "-");
    LikePair(Digits(y, 4), Digits(y', 4), y, y', "-",
             Digits(m, 2) + "-" + Digits(d, 2), Digits(m', 2) + "-" + Digits(d', 2), 100 * m + d, 100 * m' + d');
  }

  /** The date fields of two days, compared as a triple. */
  lemma DatesInOrder(a: nat, b: nat)
    requires a < b
    ensures var y, y' := YearOf(a, 0), YearOf(b, 0);
            y.y < y'.y || (y.y == y'.y && (MonthIn(y).m < MonthIn(y').m
                                           || (MonthIn(y).m == MonthIn(y').m && MonthIn(y).day < MonthIn(y').day)))
  {
    var y, y' := YearOf(a, 0), YearOf(b, 0);
    YearsInOrder(a, b, 0);
    if y.y == y'.y {
      YearIsItsMonths(y.y);
      MonthsInOrder(y.day, y'.day, y.y, 1);
    }
  }

  lemma MonthDaysBound(y: nat, m: nat)
    ensures MonthDays(y, m) <= 31
  {
  }

  lemma DateLess(a: nat, b: nat)
    requires a < b && YearOf(b, 0).y <= 9999
    ensures Less(DateText(a), DateText(b))
  {
    var y, y' := YearOf(a, 0), YearOf(b, 0);
    var m, m' := MonthIn(y), MonthIn(y');
    DatesInOrder(a, b);
    MonthDaysBound(y.y, m.m);
    MonthDaysBound(y'.y, m'.m);
    FieldsLess(y.y, m.m, m.day + 1, y'.y, m'.m, m'.day + 1);
  }

  lemma LessAsymmetric(s: string, t: string)
    requires Less(s, t)
    ensures !Less(t, s) && s != t
  {
    LessIrreflexive(s);
  }

  lemma DateLike(a: nat, b: nat)
    requires YearOf(a, 0).y <= 9999 && YearOf(b, 0).y <= 9999
    ensures Like(DateText(a), DateText(b), a, b)
  {
    LessIrreflexive(DateText(a));
    if a < b {
      DateLess(a, b);
      LessAsymmetric(DateText(a), DateText(b));
    } else if b < a {
      DateLess(b, a);
      LessAsymmetric(DateText(b), DateText(a));
    }
  }

  /** Texts of one style compare bytewise exactly as their instants do in time
      (section 5.1 of RFC 3339). */
  lemma TextOrderIsTimeOrder(a: nat, b: nat, style: Style)
    requires InRange(a) && InRange(b)
    ensures Less(Text(a, style), Text(b, style)) <==> a < b
  {
    FourDigitYears(a / DAY, 0);
    FourDigitYears(b / DAY, 0);
    DateLike(a / DAY, b / DAY);
    ClockLike(a % DAY, b % DAY);
    LikePair(DateText(a / DAY), DateText(b / DAY), a / DAY, b / DAY, Separator(style), ClockText(a % DAY),
             ClockText(b % DAY), a % DAY, b % DAY);
    var s := DateText(a / DAY) + Separator(style) + ClockText(a % DAY);
    var t := DateText(b / DAY) + Separator(style) + ClockText(b % DAY);
    LessConcat(s, Zone(style), t, Zone(style));
    LessIrreflexive(Zone(style));
  }

  /** Reading a text of either style back, field by field. */
  function ParseDate(s: string): nat
    requires |s| == 10
  {
    var y, m, d := Read(s[..4]), Read(s[5..7]), Read(s[8..10]);
    YearStart(0, y) + (if m >= 1 then MonthStart(y, 1, m) else 0) + (if d >= 1 then d - 1 else 0)
  }

  function ParseClock(s: string): nat
    requires |s| == 8
  {
    3600 * Read(s[..2]) + 60 * Read(s[3..5]) + Read(s[6..8])
  }

  function Parse(s: string): nat
    requires |s| >= 19
  {
    ParseDate(s[..10]) * DAY + ParseClock(s[11..19])
  }

  lemma FieldParts(y: nat, m: nat, d: nat)
    requires y <= 9999 && m < 100 && d < 100
    ensures var s := FieldsText(y, m, d); Read(s[..4]) == y && Read(s[5..7]) == m && Read(s[8..10]) == d
  {
    Powers();
    var s := FieldsText(y, m, d);
    assert s[..4] == Digits(y, 4) && s[5..7] == Digits(m, 2) && s[8..10] == Digits(d, 2);
    ReadDigits(y, 4);
    ReadDigits(m, 2);
    ReadDigits(d, 2);
  }

  /** The fields of a day's date and the day they count to. */
  lemma DateCounts(day: nat)
    ensures var y := YearOf(day, 0);
            var m := MonthIn(y);
            && 1 <= m.m <= 12 && m.day < 31
            && YearStart(0, y.y) + MonthStart(y.y, 1, m.m) + m.day == day
  {
    var y := YearOf(day, 0);
    YearIsItsMonths(y.y);
    YearBack(day, 0);
    MonthBack(y.day, y.y, 1);
    MonthDaysBound(y.y, MonthIn(y).m);
  }

  lemma ParseDateText(day: nat)
    requires YearOf(day, 0).y <= 9999
    ensures ParseDate(DateText(day)) == day
  {
    var y := YearOf(day, 0);
    var m := MonthIn(y);
    DateCounts(day);
    FieldParts(y.y, m.m, m.day + 1);
  }

  lemma ClockParts(h: nat, m: nat, s: nat)
    requires h < 100 && m < 100 && s < 100
    ensures ParseClock(ClockFieldsText(h, m, s)) == 3600 * h + 60 * m + s
  {
    Powers();
    var r := ClockFieldsText(h, m, s);
    assert r[..2] == Digits(h, 2) && r[3..5] == Digits(m, 2) && r[6..8] == Digits(s, 2);
    ReadDigits(h, 2);
    ReadDigits(m, 2);
    ReadDigits(s, 2);
  }

  lemma ParseClockText(t: nat)
    requires t < DAY
    ensures ParseClock(ClockText(t)) == t
  {
    ClockFields(t);
    ClockParts(t / 3600, t / 60 % 60, t % 60);
  }

  /** Nothing is lost in the text: reading it back gives the second it was written for. */
  lemma ParseText(t: nat, style: Style)
    requires InRange(t)
    ensures |Text(t, style)| >= 19 && Parse(Text(t, style)) == t
  {
    var s := Text(t, style);
    assert s[..10] == DateText(t / DAY) && s[11..19] == ClockText(t % DAY);
    FourDigitYears(t / DAY, 0);
    ParseDateText(t / DAY);
    ParseClockText(t % DAY);
  }
}
