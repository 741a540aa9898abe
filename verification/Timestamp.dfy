/** RFC 3339 text of unix seconds: it reads back, and through year 9999 it sorts as the seconds do. */
module Timestamp {
  import opened Wrappers
  import opened Text
  import opened Calendar

  const SECONDS_A_DAY: nat := 86_400

  /** Days of non-negative counts have non-negative years. */
  lemma YearsFrom1970(days: nat)
    ensures CivilFromDays(days).year >= 1970
  {
    CivilValid(days);
    EpochIsDayZero(0);
    if days > 0 {
      CivilMonotone(0, days);
    }
  }

  /** The six fields of a timestamp. */
  datatype Fields = Fields(year: nat, month: nat, day: nat, hour: nat, minute: nat, second: nat)

  function FieldsOf(unixSecs: nat): (f: Fields)
    ensures f.month < 100 && f.day < 100 && f.hour < 24 && f.minute < 60 && f.second < 60
  {
    var days := unixSecs / SECONDS_A_DAY;
    var rest := unixSecs % SECONDS_A_DAY;
    var c := CivilFromDays(days);
    YearsFrom1970(days);
    CivilValid(days);
    Fields(c.year, c.month, c.day, rest / 3_600, rest % 3_600 / 60, rest % 60)
  }

  /** One padded number, a separator, and what follows. */
  function Part(n: nat, width: nat, separator: char, rest: string): string {
    Then(Padded(n, width), separator, rest)
  }

  function Then(digits: string, separator: char, rest: string): string {
    digits + ([separator] + rest)
  }

  function TimeText(f: Fields): string {
    Part(f.hour, 2, ':', Part(f.minute, 2, ':', Part(f.second, 2, 'Z', "")))
  }

  function TextOf(f: Fields): string {
    Part(f.year, 4, '-', Part(f.month, 2, '-', Part(f.day, 2, 'T', TimeText(f))))
  }

  function Rfc3339(unixSecs: nat): string {
    TextOf(FieldsOf(unixSecs))
  }

  // --- reading it back ----------------------------------------------------------------------

  function SecondsAt(days: int, hour: nat, minute: nat, second: nat): Option<nat> {
    if days < 0 then None else Some(days * SECONDS_A_DAY + hour * 3_600 + minute * 60 + second)
  }

  function SecondsOf(f: Fields): Option<nat> {
    SecondsAt(DaysFromCivil(Civil(f.year, f.month, f.day)), f.hour, f.minute, f.second)
  }

  /** Digits at `from` up to the separator at `to`. */
  predicate DigitsAt(t: string, from: nat, to: nat, separator: char)
    requires from <= to < |t|
  {
    AllDigits(t[from..to]) && t[to] == separator
  }

  /** Read `date-time` of section 5.6 of RFC 3339 in UTC; the year may have more than four digits. */
  function ParseFields(t: string): Option<Fields> {
    var y := |t| - 16;
    if y < 4 || !DigitsAt(t, 0, y, '-') || !DigitsAt(t, y + 1, y + 3, '-') || !DigitsAt(t, y + 4, y + 6, 'T')
       || !DigitsAt(t, y + 7, y + 9, ':') || !DigitsAt(t, y + 10, y + 12, ':') || !DigitsAt(t, y + 13, y + 15, 'Z')
    then None
    else Some(Fields(
      DecimalValue(t[0..y]), DecimalValue(t[y + 1..y + 3]), DecimalValue(t[y + 4..y + 6]),
      DecimalValue(t[y + 7..y + 9]), DecimalValue(t[y + 10..y + 12]), DecimalValue(t[y + 13..y + 15])))
  }

  function Parse(t: string): Option<nat> {
    match ParseFields(t)
    case None => None
    case Some(f) => SecondsOf(f)
  }

  lemma {:induction false} PaddedLength(n: nat, width: nat, bound: nat)
    requires bound == Power10(width) && n < bound
    ensures |Padded(n, width)| == width
    decreases width
  {
    if width == 0 {
    } else {
      PaddedLength(n / 10, width - 1, Power10(width - 1));
    }
  }

  function Power10(n: nat): nat {
    if n == 0 then 1 else 10 * Power10(n - 1)
  }

  lemma TwoDigits(n: nat)
    requires n < 100
    ensures |Padded(n, 2)| == 2
  {
    assert Power10(2) == 10 * Power10(1) == 100;
    PaddedLength(n, 2, 100);
  }

  /** Digits and their separator at an index of a longer text. */
  predicate PieceAt(t: string, from: nat, digits: string, separator: char) {
    var to := from + |digits|;
    to < |t| && t[from..to] == digits && t[to] == separator
  }

  lemma PieceThen(t: string, from: nat, digits: string, separator: char, rest: string)
    requires from <= |t| && t[from..] == Then(digits, separator, rest)
    ensures PieceAt(t, from, digits, separator) && t[from + |digits| + 1..] == rest
  {
    var s := t[from..];
    var to := from + |digits|;
    assert t[from..to] == s[..to - from] == digits;
    assert t[to] == s[to - from] == separator;
    assert t[to + 1..] == s[to - from + 1..] == rest;
  }

  lemma ThreePieces(t: string, from: nat, a: string, b: string, c: string, p: char, q: char, r: char, rest: string)
    requires from <= |t| && t[from..] == Then(a, p, Then(b, q, Then(c, r, rest)))
    requires |b| == |c| == 2
    ensures PieceAt(t, from, a, p) && PieceAt(t, from + |a| + 1, b, q) && PieceAt(t, from + |a| + 4, c, r)
    ensures from + |a| + 7 <= |t| && t[from + |a| + 7..] == rest
  {
    PieceThen(t, from, a, p, Then(b, q, Then(c, r, rest)));
    PieceThen(t, from + |a| + 1, b, q, Then(c, r, rest));
    PieceThen(t, from + |a| + 4, c, r, rest);
  }

  /** Six digit strings of a date and a time. */
  datatype Digits = Digits(year: string, month: string, day: string, hour: string, minute: string, second: string) {
    predicate Valid() {
      && |year| >= 4 && |month| == |day| == |hour| == |minute| == |second| == 2
      && AllDigits(year) && AllDigits(month) && AllDigits(day) && AllDigits(hour) && AllDigits(minute) && AllDigits(second)
    }

    function Values(): Fields
      requires Valid()
    {
      Fields(DecimalValue(year), DecimalValue(month), DecimalValue(day), DecimalValue(hour), DecimalValue(minute),
             DecimalValue(second))
    }

    function Time(): string { Then(hour, ':', Then(minute, ':', Then(second, 'Z', ""))) }

    function Text(): string { Then(year, '-', Then(month, '-', Then(day, 'T', Time()))) }
  }

  predicate AllAt(t: string, d: Digits) {
    var y := |d.year|;
    && |t| == y + 16
    && PieceAt(t, 0, d.year, '-') && PieceAt(t, y + 1, d.month, '-') && PieceAt(t, y + 4, d.day, 'T')
    && PieceAt(t, y + 7, d.hour, ':') && PieceAt(t, y + 10, d.minute, ':') && PieceAt(t, y + 13, d.second, 'Z')
  }

  lemma TextHasAll(d: Digits, t: string)
    requires d.Valid() && t == d.Text()
    ensures AllAt(t, d)
  {
    hide PieceAt;
    var y := |d.year|;
    assert t[0..] == t;
    ThreePieces(t, 0, d.year, d.month, d.day, '-', '-', 'T', d.Time());
    ThreePieces(t, y + 7, d.hour, d.minute, d.second, ':', ':', 'Z', "");
  }

  lemma AllAreParsed(d: Digits, t: string)
    requires d.Valid() && AllAt(t, d)
    ensures ParseFields(t) == Some(d.Values())
  {
  }

  function DigitsOf(f: Fields): (d: Digits)
    requires f.month < 100 && f.day < 100 && f.hour < 100 && f.minute < 100 && f.second < 100
    ensures d.Valid() && d.Values() == f && d.Text() == TextOf(f)
  {
    TwoDigits(f.month);
    TwoDigits(f.day);
    TwoDigits(f.hour);
    TwoDigits(f.minute);
    TwoDigits(f.second);
    Digits(Padded(f.year, 4), Padded(f.month, 2), Padded(f.day, 2), Padded(f.hour, 2), Padded(f.minute, 2),
           Padded(f.second, 2))
  }

  /** The text of any digits is read as the numbers they show. */
  lemma DigitsRead(d: Digits)
    requires d.Valid()
    ensures ParseFields(d.Text()) == Some(d.Values())
  {
    TextHasAll(d, d.Text());
    AllAreParsed(d, d.Text());
  }

  /** The text of any fields in range is read as the fields it shows. */
  lemma TextReads(f: Fields)
    requires f.month < 100 && f.day < 100 && f.hour < 100 && f.minute < 100 && f.second < 100
    ensures ParseFields(TextOf(f)) == Some(f)
  {
    DigitsRead(DigitsOf(f));
  }

  lemma DayOfFields(unixSecs: nat)
    ensures var f := FieldsOf(unixSecs);
            DaysFromCivil(Civil(f.year, f.month, f.day)) == unixSecs / SECONDS_A_DAY
  {
    CivilValid(unixSecs / SECONDS_A_DAY);
  }

  lemma SecondsRejoin(unixSecs: nat)
    ensures var rest := unixSecs % SECONDS_A_DAY;
            SecondsAt(unixSecs / SECONDS_A_DAY, rest / 3_600, rest % 3_600 / 60, rest % 60) == Some(unixSecs)
  {
  }

  /** The text of any number of seconds reads back to it. */
  lemma ParsesBack(unixSecs: nat)
    ensures Parse(Rfc3339(unixSecs)) == Some(unixSecs)
  {
    TextReads(FieldsOf(unixSecs));
    DayOfFields(unixSecs);
    SecondsRejoin(unixSecs);
  }

  // --- order --------------------------------------------------------------------------------

  lemma {:induction false} ConcatLess(p: string, r: string, q: string, t: string)
    requires |p| == |q|
    ensures TextLess(p + r, q + t) <==> TextLess(p, q) || (p == q && TextLess(r, t))
  {
    if |p| == 0 {
      assert p + r == r && q + t == t;
    } else {
      assert (p + r)[1..] == p[1..] + r && (q + t)[1..] == q[1..] + t;
      ConcatLess(p[1..], r, q[1..], t);
      assert p == [p[0]] + p[1..] && q == [q[0]] + q[1..];
    }
  }

  /** One more digit behind texts that sort as their numbers. */
  lemma DigitBehind(p: string, q: string, a: nat, b: nat)
    requires |p| == |q| && (TextLess(p, q) <==> a / 10 < b / 10) && (p == q <==> a / 10 == b / 10)
    ensures TextLess(p + [Digit(a % 10)], q + [Digit(b % 10)]) <==> a < b
  {
    ConcatLess(p, [Digit(a % 10)], q, [Digit(b % 10)]);
    DigitLess(a % 10, b % 10);
  }

  lemma PaddedEqual(a: nat, b: nat, width: nat)
    ensures Padded(a, width) == Padded(b, width) <==> a == b
  {
    assert DecimalValue(Padded(a, width)) == a && DecimalValue(Padded(b, width)) == b;
  }

  lemma PaddedTail(n: nat, width: nat)
    requires width > 0
    ensures Padded(n, width) == Padded(n / 10, width - 1) + [Digit(n % 10)]
  {
  }

  lemma PaddedNone(width: nat)
    requires width == 0
    ensures Padded(0, width) == ""
  {
  }

  /** Equally long padded numbers sort as numbers. */
  lemma {:induction false} PaddedLess(a: nat, b: nat, width: nat)
    requires a < Power10(width) && b < Power10(width)
    ensures TextLess(Padded(a, width), Padded(b, width)) <==> a < b
    decreases width
  {
    hide Padded;
    if width == 0 {
      PaddedNone(width);
    } else {
      PaddedTail(a, width);
      PaddedTail(b, width);
      PaddedLess(a / 10, b / 10, width - 1);
      PaddedEqual(a / 10, b / 10, width - 1);
      PaddedLength(a / 10, width - 1, Power10(width - 1));
      PaddedLength(b / 10, width - 1, Power10(width - 1));
      DigitBehind(Padded(a / 10, width - 1), Padded(b / 10, width - 1), a, b);
    }
  }

  lemma DigitLess(a: nat, b: nat)
    requires a < 10 && b < 10
    ensures TextLess([Digit(a)], [Digit(b)]) <==> a < b
  {
  }

  predicate TimeLess(f: Fields, g: Fields) {
    f.hour < g.hour || (f.hour == g.hour && (f.minute < g.minute || (f.minute == g.minute && f.second < g.second)))
  }

  predicate FieldsLess(f: Fields, g: Fields) {
    f.year < g.year || (f.year == g.year && (f.month < g.month || (f.month == g.month && (f.day < g.day
      || (f.day == g.day && TimeLess(f, g))))))
  }

  lemma PartLess(a: nat, b: nat, width: nat, separator: char, r: string, t: string)
    requires a < Power10(width) && b < Power10(width)
    ensures TextLess(Part(a, width, separator, r), Part(b, width, separator, t)) <==> a < b || (a == b && TextLess(r, t))
  {
    PaddedLess(a, b, width);
    PaddedEqual(a, b, width);
    PaddedLength(a, width, Power10(width));
    PaddedLength(b, width, Power10(width));
    ConcatLess(Padded(a, width), [separator] + r, Padded(b, width), [separator] + t);
    ConcatLess([separator], r, [separator], t);
  }

  predicate FourDigitYear(f: Fields) {
    f.year < 10_000 && f.month < 100 && f.day < 100 && f.hour < 100 && f.minute < 100 && f.second < 100
  }

  lemma TimesLess(f: Fields, g: Fields)
    requires FourDigitYear(f) && FourDigitYear(g)
    ensures TextLess(TimeText(f), TimeText(g)) <==> TimeLess(f, g)
  {
    assert !TextLess("", "");
    hide Padded, Part, TextLess;
    assert Power10(2) == 10 * Power10(1) == 100;
    var sf, sg := Part(f.second, 2, 'Z', ""), Part(g.second, 2, 'Z', "");
    PartLess(f.second, g.second, 2, 'Z', "", "");
    var mf, mg := Part(f.minute, 2, ':', sf), Part(g.minute, 2, ':', sg);
    PartLess(f.minute, g.minute, 2, ':', sf, sg);
    PartLess(f.hour, g.hour, 2, ':', mf, mg);
  }

  lemma TextsLess(f: Fields, g: Fields)
    requires FourDigitYear(f) && FourDigitYear(g)
    ensures TextLess(TextOf(f), TextOf(g)) <==> FieldsLess(f, g)
  {
    hide Padded, Part, TextLess, TimeText, TimeLess;
    assert Power10(2) == 10 * Power10(1) == 100;
    assert Power10(4) == 10 * Power10(3) == 100 * Power10(2);
    var hf, hg := TimeText(f), TimeText(g);
    TimesLess(f, g);
    var df, dg := Part(f.day, 2, 'T', hf), Part(g.day, 2, 'T', hg);
    PartLess(f.day, g.day, 2, 'T', hf, hg);
    var nf, ng := Part(f.month, 2, '-', df), Part(g.month, 2, '-', dg);
    PartLess(f.month, g.month, 2, '-', df, dg);
    PartLess(f.year, g.year, 4, '-', nf, ng);
  }

  lemma FieldsInOrder(a: nat, b: nat)
    ensures FieldsLess(FieldsOf(a), FieldsOf(b)) <==> a < b
  {
    CivilMonotone(a / SECONDS_A_DAY, b / SECONDS_A_DAY);
    CivilMonotone(b / SECONDS_A_DAY, a / SECONDS_A_DAY);
    TimeInOrder(a % SECONDS_A_DAY, b % SECONDS_A_DAY);
  }

  lemma TimeRejoins(p: nat)
    ensures p == 3_600 * (p / 3_600) + 60 * (p % 3_600 / 60) + p % 60
    ensures p % 3_600 / 60 < 60
  {
  }

  lemma PartsInOrder(h: nat, m: nat, s: nat, k: nat, n: nat, t: nat)
    requires m < 60 && s < 60 && n < 60 && t < 60
    ensures 3_600 * h + 60 * m + s < 3_600 * k + 60 * n + t <==> h < k || (h == k && (m < n || (m == n && s < t)))
  {
  }

  /** Hours, minutes and seconds of a day in order. */
  lemma TimeInOrder(p: nat, q: nat)
    ensures var h, k, m, n := p / 3_600, q / 3_600, p % 3_600 / 60, q % 3_600 / 60;
            p < q <==> h < k || (h == k && (m < n || (m == n && p % 60 < q % 60)))
  {
    TimeRejoins(p);
    TimeRejoins(q);
    PartsInOrder(p / 3_600, p % 3_600 / 60, p % 60, q / 3_600, q % 3_600 / 60, q % 60);
  }

  /** Through year 9999 the texts sort exactly as the seconds do. */
  lemma SortsThroughYear9999(a: nat, b: nat)
    requires FieldsOf(a).year <= 9999 && FieldsOf(b).year <= 9999
    ensures TextLess(Rfc3339(a), Rfc3339(b)) <==> a < b
  {
    TextsLess(FieldsOf(a), FieldsOf(b));
    FieldsInOrder(a, b);
  }

  // --- the epoch ----------------------------------------------------------------------------

  /** What every row the store creates is stamped with. */
  const EPOCH_TEXT := "2026-08-21T00:00:00Z"

  lemma TwoDigitText(n: nat)
    requires n < 100
    ensures Padded(n, 2) == [Digit(n / 10), Digit(n % 10)]
  {
    hide Padded;
    PaddedTail(n, 2);
    PaddedTail(n / 10, 1);
    PaddedNone(0);
  }

  lemma FourDigits(n: nat)
    requires n < 10_000
    ensures Padded(n, 4) == [Digit(n / 1_000), Digit(n / 100 % 10), Digit(n / 10 % 10), Digit(n % 10)]
  {
    hide Padded;
    PaddedTail(n, 4);
    PaddedTail(n / 10, 3);
    TwoDigitText(n / 100);
    assert n / 10 / 10 == n / 100 && n / 100 / 10 == n / 1_000;
  }

  /** The twenty characters of a text with a four-digit year. */
  lemma TextSpelled(f: Fields)
    requires FourDigitYear(f)
    ensures TextOf(f) ==
            [Digit(f.year / 1_000), Digit(f.year / 100 % 10), Digit(f.year / 10 % 10), Digit(f.year % 10), '-',
             Digit(f.month / 10), Digit(f.month % 10), '-', Digit(f.day / 10), Digit(f.day % 10), 'T',
             Digit(f.hour / 10), Digit(f.hour % 10), ':', Digit(f.minute / 10), Digit(f.minute % 10), ':',
             Digit(f.second / 10), Digit(f.second % 10), 'Z']
  {
    hide Padded;
    FourDigits(f.year);
    TwoDigitText(f.month);
    TwoDigitText(f.day);
    TwoDigitText(f.hour);
    TwoDigitText(f.minute);
    TwoDigitText(f.second);
  }

  lemma EpochFields(f: Fields)
    requires 1 <= f.month <= 12 && 1 <= f.day <= DaysInMonth(f.year, f.month)
    requires DaysFromCivil(Civil(f.year, f.month, f.day)) == 20_686
    ensures f.year == 2026 && f.month == 8 && f.day == 21
  {
    assert DaysFromCivil(Civil(2026, 8, 21)) == 20_686;
    SameCount(Civil(f.year, f.month, f.day), Civil(2026, 8, 21));
  }

  lemma EpochSpelled(f: Fields)
    requires f == Fields(2026, 8, 21, 0, 0, 0)
    ensures TextOf(f) == EPOCH_TEXT
  {
    hide Padded, TextOf;
    TextSpelled(f);
  }

  /** The stamp of the store's new rows is the text of its epoch, midnight of 21 August 2026. */
  lemma EpochMoment(unixSecs: nat)
    requires unixSecs == 1_787_270_400
    ensures FieldsOf(unixSecs) == Fields(2026, 8, 21, 0, 0, 0) && Rfc3339(unixSecs) == EPOCH_TEXT
  {
    hide Padded, TextOf;
    DayOfFields(unixSecs);
    CivilValid(unixSecs / SECONDS_A_DAY);
    EpochFields(FieldsOf(unixSecs));
    EpochSpelled(FieldsOf(unixSecs));
  }
}
