/** The deadline field read as UTC (src/core/datetime.ts), over ECMA-262's date arithmetic. */
module UtcDates {
  import opened Types
  import opened Text

  // ---- the calendar -----------------------------------------------------------------------------

  predicate IsLeap(y: int) {
    y % 4 == 0 && (y % 100 != 0 || y % 400 == 0)
  }

  function DaysInYear(y: int): int {
    if IsLeap(y) then 366 else 365
  }

  /** Days of a month, from 1 for January. */
  function DaysIn(y: int, month: int): int {
    if month == 2 then (if IsLeap(y) then 29 else 28)
    else if month in {4, 6, 9, 11} then 30
    else 31
  }

  datatype Parts = Parts(year: int, month: int, day: int, hour: int, minute: int, second: int)

  predicate IsRealDate(p: Parts) {
    && 1 <= p.month <= 12
    && 1 <= p.day <= DaysIn(p.year, p.month)
    && 0 <= p.hour < 24 && 0 <= p.minute < 60 && 0 <= p.second < 60
  }

  // ---- Date.UTC and the readback (ECMA-262, sections 21.4.1 and 21.4.3.4) -----------------------

  const MS_PER_DAY := 86400000
  const MAX_TIME := 8640000000000000

  /** DayFromYear: the day number of 1 January, counted from 1970. */
  function DayFromYear(y: int): int {
    365 * (y - 1970) + (y - 1969) / 4 - (y - 1901) / 100 + (y - 1601) / 400
  }

  /** Days of the year before a month, from 0 for January; 12 is the end of the year. */
  function MonthStart(leap: bool, month: int): int {
    var l := if leap then 1 else 0;
    if month <= 0 then 0
    else if month == 1 then 31
    else if month == 2 then 59 + l
    else if month == 3 then 90 + l
    else if month == 4 then 120 + l
    else if month == 5 then 151 + l
    else if month == 6 then 181 + l
    else if month == 7 then 212 + l
    else if month == 8 then 243 + l
    else if month == 9 then 273 + l
    else if month == 10 then 304 + l
    else if month == 11 then 334 + l
    else 365 + l
  }

  /** MakeDay: a month (from 0) beyond the year moves the year, a date beyond the month just adds up. */
  function MakeDay(y: int, month: int, date: int): int {
    var ym := y + month / 12;
    DayFromYear(ym) + MonthStart(IsLeap(ym), month % 12) + date - 1
  }

  /** Date.UTC, which reads a year from 0 to 99 as 1900 to 1999; None is NaN. */
  function DateUtc(y: int, month: int, date: int, hour: int, minute: int, second: int): Option<int> {
    var yr := if 0 <= y <= 99 then 1900 + y else y;
    var t := MakeDay(yr, month, date) * MS_PER_DAY + hour * 3600000 + minute * 60000 + second * 1000;
    if -MAX_TIME <= t <= MAX_TIME then Some(t) else None
  }

  /** YearFromTime: the year a day number falls in, searched from `y`. */
  function YearFrom(day: int, y: int): int
    decreases if day < DayFromYear(y) then DayFromYear(y) - day + 400 else day - DayFromYear(y)
  {
    YearLength(y);
    YearLength(y - 1);
    if day < DayFromYear(y) then YearFrom(day, y - 1)
    else if DayFromYear(y + 1) <= day then YearFrom(day, y + 1)
    else y
  }

  function YearOf(day: int): int {
    YearFrom(day, 1970)
  }

  /** MonthFromTime, from 0, for a day of the year. */
  function MonthOf(leap: bool, dayInYear: int): int {
    if dayInYear < MonthStart(leap, 1) then 0
    else if dayInYear < MonthStart(leap, 2) then 1
    else if dayInYear < MonthStart(leap, 3) then 2
    else if dayInYear < MonthStart(leap, 4) then 3
    else if dayInYear < MonthStart(leap, 5) then 4
    else if dayInYear < MonthStart(leap, 6) then 5
    else if dayInYear < MonthStart(leap, 7) then 6
    else if dayInYear < MonthStart(leap, 8) then 7
    else if dayInYear < MonthStart(leap, 9) then 8
    else if dayInYear < MonthStart(leap, 10) then 9
    else if dayInYear < MonthStart(leap, 11) then 10
    else 11
  }

  /** Year, month (from 0) and date of a day number. */
  function Civil(day: int): (int, int, int) {
    var y := YearOf(day);
    var d := day - DayFromYear(y);
    var m := MonthOf(IsLeap(y), d);
    (y, m, d - MonthStart(IsLeap(y), m) + 1)
  }

  /** The getUTC… components, with the month from 1. */
  function Readback(t: int): Parts {
    var (y, m, d) := Civil(t / MS_PER_DAY);
    var r := t % MS_PER_DAY;
    Parts(y, m + 1, d, r / 3600000, r / 60000 % 60, r / 1000 % 60)
  }

  // ---- the calendar arithmetic is right ---------------------------------------------------------

  lemma Quarters(y: int)
    ensures (y - 1968) / 4 - (y - 1969) / 4 == if y % 4 == 0 then 1 else 0
  {
    var q := y / 4;
    assert (y - 1968) / 4 == q - 492;
    assert (y - 1969) / 4 == if y % 4 == 0 then q - 493 else q - 492;
  }

  lemma Centuries(y: int)
    ensures (y - 1900) / 100 - (y - 1901) / 100 == if y % 100 == 0 then 1 else 0
  {
    var q := y / 100;
    assert (y - 1900) / 100 == q - 19;
    assert (y - 1901) / 100 == if y % 100 == 0 then q - 20 else q - 19;
  }

  lemma FourCenturies(y: int)
    ensures (y - 1600) / 400 - (y - 1601) / 400 == if y % 400 == 0 then 1 else 0
  {
    var q := y / 400;
    assert (y - 1600) / 400 == q - 4;
    assert (y - 1601) / 400 == if y % 400 == 0 then q - 5 else q - 4;
  }

  lemma CenturyIsFourth(y: int)
    ensures y % 100 == 0 ==> y % 4 == 0
  {
    var q, r := y / 100, y % 100;
    assert y == 4 * (25 * q) + r;
  }

  lemma FourthCenturyIsCentury(y: int)
    ensures y % 400 == 0 ==> y % 100 == 0
  {
    var q, r := y / 400, y % 400;
    assert y == 100 * (4 * q) + r;
  }

  lemma LeapRule(y: int)
    ensures (if y % 4 == 0 then 1 else 0) - (if y % 100 == 0 then 1 else 0) + (if y % 400 == 0 then 1 else 0)
         == DaysInYear(y) - 365
  {
    CenturyIsFourth(y);
    FourthCenturyIsCentury(y);
  }

  /** The next year starts one year's days later. */
  lemma YearLength(y: int)
    ensures DayFromYear(y + 1) == DayFromYear(y) + DaysInYear(y)
  {
    Quarters(y);
    Centuries(y);
    FourCenturies(y);
    LeapRule(y);
    hide IsLeap, DaysInYear;
    assert DayFromYear(y + 1) == 365 * (y - 1970) + 365 + (y - 1968) / 4 - (y - 1900) / 100 + (y - 1600) / 400;
  }

  lemma {:induction false} YearsAscend(a: int, b: int)
    requires a <= b
    ensures DayFromYear(b) >= DayFromYear(a) + 365 * (b - a)
    decreases b - a
  {
    if a < b {
      YearsAscend(a, b - 1);
      YearLength(b - 1);
    }
  }

  lemma {:induction false} YearFromContains(day: int, y: int)
    ensures var r := YearFrom(day, y); DayFromYear(r) <= day < DayFromYear(r + 1)
    decreases if day < DayFromYear(y) then DayFromYear(y) - day + 400 else day - DayFromYear(y)
  {
    hide DayFromYear;
    YearLength(y);
    YearLength(y - 1);
    if day < DayFromYear(y) {
      YearFromContains(day, y - 1);
    } else if DayFromYear(y + 1) <= day {
      YearFromContains(day, y + 1);
    }
  }

  /** The year of a day is the one whose days contain it. */
  lemma YearOfIs(day: int, y: int)
    ensures YearOf(day) == y <==> DayFromYear(y) <= day < DayFromYear(y + 1)
  {
    var r := YearOf(day);
    YearFromContains(day, 1970);
    if r < y {
      YearsAscend(r + 1, y);
    } else if y < r {
      YearsAscend(y + 1, r);
    }
  }

  lemma MonthLength(y: int, m: int)
    requires 0 <= m < 12
    ensures MonthStart(IsLeap(y), m + 1) == MonthStart(IsLeap(y), m) + DaysIn(y, m + 1)
    ensures 0 <= MonthStart(IsLeap(y), m) && MonthStart(IsLeap(y), m + 1) <= DaysInYear(y)
  {
  }

  lemma MonthOfIs(leap: bool, d: int, m: int)
    requires 0 <= m < 12 && MonthStart(leap, m) <= d < MonthStart(leap, m + 1)
    ensures MonthOf(leap, d) == m
  {
  }

  lemma MonthOfContains(leap: bool, d: int)
    requires 0 <= d < MonthStart(leap, 12)
    ensures var m := MonthOf(leap, d); 0 <= m < 12 && MonthStart(leap, m) <= d < MonthStart(leap, m + 1)
  {
  }

  predicate IsRealDay(y: int, month: int, day: int) {
    1 <= month <= 12 && 1 <= day <= DaysIn(y, month)
  }

  /** A real date is read back as itself. */
  lemma RealDayReadsBack(y: int, month: int, day: int)
    requires IsRealDay(y, month, day)
    ensures Civil(MakeDay(y, month - 1, day)) == (y, month - 1, day)
  {
    hide DayFromYear, MonthOf;
    var m, n := month - 1, MakeDay(y, month - 1, day);
    assert m / 12 == 0 && m % 12 == m;
    MonthLength(y, m);
    YearLength(y);
    hide MonthStart;
    YearOfIs(n, y);
    MonthOfIs(IsLeap(y), n - DayFromYear(y), m);
  }

  /** Whatever is read back is a real date. */
  lemma ReadDayIsReal(day: int)
    ensures var (y, m, d) := Civil(day); IsRealDay(y, m + 1, d)
  {
    var y := YearOf(day);
    YearOfIs(day, y);
    YearLength(y);
    var d := day - DayFromYear(y);
    assert MonthStart(IsLeap(y), 12) == DaysInYear(y);
    MonthOfContains(IsLeap(y), d);
    MonthLength(y, MonthOf(IsLeap(y), d));
  }

  lemma ReadbackIsReal(t: int)
    ensures IsRealDate(Readback(t))
  {
    ReadDayIsReal(t / MS_PER_DAY);
    hide Civil, DaysIn;
  }

  /** The instant of a real date, without Date.UTC's rule for short years. */
  function Instant(p: Parts): int {
    MakeDay(p.year, p.month - 1, p.day) * MS_PER_DAY + p.hour * 3600000 + p.minute * 60000 + p.second * 1000
  }

  lemma ClockReadsBack(day: int, h: int, mi: int, s: int)
    requires 0 <= h < 24 && 0 <= mi < 60 && 0 <= s < 60
    ensures var t := day * MS_PER_DAY + h * 3600000 + mi * 60000 + s * 1000;
            && t / MS_PER_DAY == day
            && t % MS_PER_DAY == h * 3600000 + mi * 60000 + s * 1000
  {
  }

  lemma DayPartsReadBack(h: int, mi: int, s: int)
    requires 0 <= h < 24 && 0 <= mi < 60 && 0 <= s < 60
    ensures var r := h * 3600000 + mi * 60000 + s * 1000;
            r / 3600000 == h && r / 60000 % 60 == mi && r / 1000 % 60 == s
  {
    var r := h * 3600000 + mi * 60000 + s * 1000;
    assert r / 60000 == h * 60 + mi;
    assert r / 1000 == (h * 60 + mi) * 60 + s;
  }

  lemma InstantReadsBack(p: Parts)
    requires IsRealDate(p)
    ensures Readback(Instant(p)) == p
  {
    hide Civil, MakeDay, DaysIn;
    RealDayReadsBack(p.year, p.month, p.day);
    ClockReadsBack(MakeDay(p.year, p.month - 1, p.day), p.hour, p.minute, p.second);
    DayPartsReadBack(p.hour, p.minute, p.second);
  }

  lemma YearOfAtLeast(day: int, y: int)
    requires DayFromYear(y) <= day
    ensures YearOf(day) >= y
  {
    hide DayFromYear;
    var r := YearOf(day);
    YearFromContains(day, 1970);
    if r < y {
      YearsAscend(r + 1, y);
    }
  }

  /** An instant is the one its components name, to the second. */
  lemma ReadbackNamesTheInstant(t: int)
    ensures Instant(Readback(t)) == t - t % 1000
  {
    var day, r := t / MS_PER_DAY, t % MS_PER_DAY;
    ReadDayIsReal(day);
    assert MakeDay(Readback(t).year, Readback(t).month - 1, Readback(t).day) == day;
    hide Civil, MakeDay;
    SecondsOfDay(r);
    ModOfDay(t);
  }

  lemma SecondsOfDay(r: int)
    requires 0 <= r < MS_PER_DAY
    ensures r / 3600000 * 3600000 + r / 60000 % 60 * 60000 + r / 1000 % 60 * 1000 == r - r % 1000
  {
    var s := r / 1000;
    var m := s / 60;
    assert r / 60000 == m && r / 3600000 == m / 60;
  }

  /** Date.UTC read back gives the same components exactly for real dates with a year from 100 on. */
  lemma ReadbackCatchesEveryRollover(p: Parts)
    requires 0 <= p.year <= 9999
    ensures var t := DateUtc(p.year, p.month - 1, p.day, p.hour, p.minute, p.second);
            (t.Some? && Readback(t.value) == p) <==> (IsRealDate(p) && p.year >= 100)
    ensures IsRealDate(p) && p.year >= 100 ==>
            DateUtc(p.year, p.month - 1, p.day, p.hour, p.minute, p.second) == Some(Instant(p))
  {
    var t := DateUtc(p.year, p.month - 1, p.day, p.hour, p.minute, p.second);
    hide Readback, IsRealDate;
    if IsRealDate(p) && p.year >= 100 {
      InstantInRange(p);
      InstantReadsBack(p);
    } else if t.Some? {
      ReadbackIsReal(t.value);
      if IsRealDate(p) {
        ShortYearMoves(p, t.value);
      }
    }
  }

  lemma YearInRange(y: int)
    requires 0 <= y <= 9999
    ensures -800000 <= DayFromYear(y) <= 4000000
  {
  }

  lemma DayInRange(y: int, m: int, d: int)
    requires 0 <= y <= 9999 && 0 <= m < 12 && 1 <= d <= DaysIn(y, m + 1)
    ensures -800000 <= MakeDay(y, m, d) <= 4000400
  {
    hide DayFromYear, MonthStart, DaysIn, IsLeap;
    assert m / 12 == 0 && m % 12 == m;
    YearInRange(y);
    MonthLength(y, m);
  }

  lemma InstantInRange(p: Parts)
    requires 0 <= p.year <= 9999 && IsRealDate(p)
    ensures -MAX_TIME <= Instant(p) <= MAX_TIME
  {
    hide MakeDay, DaysIn;
    DayInRange(p.year, p.month - 1, p.day);
  }

  lemma ShortYearMoves(p: Parts, t: int)
    requires 0 <= p.year < 100 && IsRealDate(p) && t == Instant(p.(year := 1900 + p.year))
    ensures Readback(t).year != p.year
  {
    var y := 1900 + p.year;
    var day := MakeDay(y, p.month - 1, p.day);
    assert (p.month - 1) / 12 == 0 && (p.month - 1) % 12 == p.month - 1;
    MonthLength(y, p.month - 1);
    assert DayFromYear(y) <= day;
    YearOfAtLeast(day, y);
    hide MakeDay, YearOf;
    ClockReadsBack(day, p.hour, p.minute, p.second);
  }

  // ---- the text ---------------------------------------------------------------------------------

  predicate DigitsAt(s: string, i: nat, n: nat) {
    i + n <= |s| && forall c :: c in s[i..i + n] ==> IsDigit(c)
  }

  /** `^(\d{4})-(\d{2})-(\d{2})T(\d{2}):(\d{2})(?::(\d{2}))?$` */
  predicate IsShaped(s: string) {
    && (|s| == 16 || |s| == 19)
    && DigitsAt(s, 0, 4) && s[4] == '-' && DigitsAt(s, 5, 2) && s[7] == '-' && DigitsAt(s, 8, 2)
    && s[10] == 'T' && DigitsAt(s, 11, 2) && s[13] == ':' && DigitsAt(s, 14, 2)
    && (|s| == 19 ==> s[16] == ':' && DigitsAt(s, 17, 2))
  }

  function Fields(s: string): Parts
    requires IsShaped(s)
  {
    Parts(Value(s[0..4]), Value(s[5..7]), Value(s[8..10]), Value(s[11..13]), Value(s[14..16]),
          if |s| == 19 then Value(s[17..19]) else 0)
  }

  /** `String(n).padStart(w, '0')` of a number that fits. */
  function Padded(n: nat, w: nat): (r: string)
    ensures |r| == w
  {
    if w == 0 then "" else Padded(n / 10, w - 1) + [('0' as int + n % 10) as char]
  }

  /** The year in an ISO string: four digits, or a sign and six (ECMA-262, section 21.4.1.32.1). */
  function YearText(y: int): (r: string)
    ensures |r| >= 4
  {
    if 0 <= y <= 9999 then Padded(y, 4)
    else if y < 0 then "-" + Padded(-y, 6)
    else "+" + Padded(y, 6)
  }

  function Minutes(p: Parts): (r: string)
    requires IsRealDate(p)
    ensures |r| >= 16
  {
    YearText(p.year) + "-" + Padded(p.month, 2) + "-" + Padded(p.day, 2)
    + "T" + Padded(p.hour, 2) + ":" + Padded(p.minute, 2)
  }

  /** `new Date(t).toISOString()`. */
  function ToIso(t: int): (r: string)
    ensures |r| >= 16
  {
    ReadbackIsReal(t);
    var p := Readback(t);
    Minutes(p) + ":" + Padded(p.second, 2) + "." + Padded(t % 1000, 3) + "Z"
  }

  /** utcInputToIso. */
  function UtcInputToIso(value: string): Option<string> {
    var s := Trim(value);
    if !IsShaped(s) then None
    else
      var p := Fields(s);
      match DateUtc(p.year, p.month - 1, p.day, p.hour, p.minute, p.second)
      case None => None
      case Some(t) => if Readback(t) == p then Some(ToIso(t)) else None
  }

  /** The date parser of the platform reads back what it printed (ECMA-262, section 21.4.3.2). */
  ghost predicate ReadsIso(parse: string -> Option<int>) {
    forall t :: -MAX_TIME <= t <= MAX_TIME ==> parse(ToIso(t)) == Some(t)
  }

  /** isoToUtcInput, over the platform's date parser. */
  function IsoToUtcInput(parse: string -> Option<int>, iso: Option<string>): string {
    if iso.None? || iso.value == "" then ""
    else
      match parse(iso.value)
      case None => ""
      case Some(t) => ToIso(t)[..16]
  }

  // ---- what the two functions promise -----------------------------------------------------------

  function Pow10(n: nat): nat {
    if n == 0 then 1 else 10 * Pow10(n - 1)
  }

  lemma {:induction false} PaddedValue(s: string)
    requires forall c :: c in s ==> IsDigit(c)
    ensures Padded(Value(s), |s|) == s && Value(s) < Pow10(|s|)
  {
    if s != "" {
      var init, last := s[..|s| - 1], s[|s| - 1];
      assert last in s && IsDigit(last);
      PaddedValue(init);
      var d := last as int - '0' as int;
      assert Value(s) == 10 * Value(init) + d;
      assert Value(s) / 10 == Value(init) && Value(s) % 10 == d;
      assert s == init + [last];
    }
  }

  lemma {:induction false} ValuePadded(n: nat, w: nat)
    requires n < Pow10(w)
    ensures (forall c :: c in Padded(n, w) ==> IsDigit(c)) && Value(Padded(n, w)) == n
  {
    if w > 0 {
      ValuePadded(n / 10, w - 1);
      var p := Padded(n, w);
      assert p[..|p| - 1] == Padded(n / 10, w - 1);
    }
  }

  lemma TwoDigits(s: string)
    requires |s| == 2 && forall c :: c in s ==> IsDigit(c)
    ensures Padded(Value(s), 2) == s && Value(s) < 100
  {
    PaddedValue(s);
    assert Pow10(2) == 100;
  }

  lemma FourDigits(s: string)
    requires |s| == 4 && forall c :: c in s ==> IsDigit(c)
    ensures Padded(Value(s), 4) == s && Value(s) < 10000
  {
    PaddedValue(s);
    assert Pow10(3) == 1000;
    assert Pow10(4) == 10000;
  }

  lemma ShapedSplits(s: string)
    requires IsShaped(s)
    ensures s[..16] == s[0..4] + "-" + s[5..7] + "-" + s[8..10] + "T" + s[11..13] + ":" + s[14..16]
    ensures |s| == 19 ==> s[16..] == ":" + s[17..19]
  {
    hide DigitsAt;
  }

  lemma MinutesOfFields(s: string)
    requires IsShaped(s) && IsRealDate(Fields(s))
    ensures Minutes(Fields(s)) == s[..16]
  {
    FourDigits(s[0..4]);
    TwoDigits(s[5..7]);
    TwoDigits(s[8..10]);
    TwoDigits(s[11..13]);
    TwoDigits(s[14..16]);
    ShapedSplits(s);
    hide Padded, Value, IsRealDate, IsShaped, DigitsAt, IsDigit;
  }

  /** The trimmed input names a real date and time, in a year the platform does not move. */
  predicate IsAccepted(value: string) {
    var s := Trim(value);
    IsShaped(s) && IsRealDate(Fields(s)) && Fields(s).year >= 100
  }

  function SecondsText(s: string): string
    requires IsShaped(s)
  {
    if |s| == 19 then s[16..] else ":00"
  }

  lemma SecondsOfFields(s: string)
    requires IsShaped(s)
    ensures 0 <= Fields(s).second && ":" + Padded(Fields(s).second, 2) == SecondsText(s)
  {
    if |s| == 19 {
      TwoDigits(s[17..19]);
      ShapedSplits(s);
    } else {
      TwoDigits("00");
      assert "00"[..1] == "0" && "0"[..0] == "";
      assert Value("0") == 0;
    }
  }

  lemma AcceptsRealDates(value: string)
    ensures UtcInputToIso(value) ==
            if IsAccepted(value) then Some(ToIso(Instant(Fields(Trim(value))))) else None
  {
    hide Trim, IsShaped, Readback, IsRealDate, ToIso, DateUtc, Instant;
    var s := Trim(value);
    if IsShaped(s) {
      var p := Fields(s);
      YearFits(s);
      hide Fields;
      ReadbackCatchesEveryRollover(p);
    }
  }

  lemma YearFits(s: string)
    requires IsShaped(s)
    ensures 0 <= Fields(s).year <= 9999
  {
    FourDigits(s[0..4]);
  }

  lemma IsoOfFields(s: string)
    requires IsShaped(s) && IsRealDate(Fields(s))
    ensures ToIso(Instant(Fields(s))) == s[..16] + SecondsText(s) + ".000Z"
  {
    hide IsShaped, Fields, IsRealDate, ToIso, Minutes, Instant, Padded, SecondsText;
    ShapedLength(s);
    IsoOfInstant(Fields(s));
    MinutesOfFields(s);
    SecondsOfFields(s);
    var sec := Padded(Fields(s).second, 2);
    assert s[..16] + ":" + sec + ".000Z" == s[..16] + (":" + sec) + ".000Z";
  }

  /** Exactly the real dates are accepted, and the stored instant spells the time as it was typed. */
  lemma AcceptedTextIsKept(value: string)
    ensures UtcInputToIso(value) == (
      if IsAccepted(value) then Some(Trim(value)[..16] + SecondsText(Trim(value)) + ".000Z") else None)
  {
    hide Trim, IsShaped, Fields, IsRealDate, UtcInputToIso, ToIso, SecondsText;
    AcceptsRealDates(value);
    if IsAccepted(value) {
      IsoOfFields(Trim(value));
    }
  }

  /** A date and time as the field submits it, without seconds and with them. */
  function Typed(p: Parts): (string, string)
    requires IsRealDate(p)
  {
    (Minutes(p), Minutes(p) + ":" + Padded(p.second, 2))
  }

  /** The texts accepted are the real dates from the year 100 to 9999, written out, with or without seconds. */
  lemma AcceptsExactlyWrittenDates(value: string)
    ensures UtcInputToIso(value).Some? <==>
            exists p :: && IsRealDate(p) && 100 <= p.year <= 9999
                        && ((Trim(value) == Typed(p).0 && p.second == 0) || Trim(value) == Typed(p).1)
  {
    hide Trim, UtcInputToIso, IsRealDate, Minutes, Padded, IsShaped, Fields;
    AcceptsRealDates(value);
    var s := Trim(value);
    if IsAccepted(value) {
      AcceptedIsWritten(s);
      YearFits(s);
    }
    forall p | IsRealDate(p) && 100 <= p.year <= 9999 && ((s == Typed(p).0 && p.second == 0) || s == Typed(p).1)
      ensures IsAccepted(value)
    {
      WrittenIsAccepted(p);
    }
  }

  lemma AcceptedIsWritten(s: string)
    requires IsShaped(s) && IsRealDate(Fields(s))
    ensures (s == Typed(Fields(s)).0 && Fields(s).second == 0) || s == Typed(Fields(s)).1
  {
    MinutesOfFields(s);
    SecondsOfFields(s);
    var p := Fields(s);
    var sec := Padded(p.second, 2);
    assert |s| == 16 ==> s[..16] == s && p.second == 0;
    hide Minutes, Padded, IsRealDate, Fields, IsShaped;
    assert s == s[..16] + s[16..];
    assert Minutes(p) + ":" + sec == Minutes(p) + (":" + sec);
    AcceptedLength(s);
  }

  lemma AcceptedLength(s: string)
    requires IsShaped(s)
    ensures |s| == 16 || |s| == 19
  {
  }

  lemma WrittenIsAccepted(p: Parts)
    requires IsRealDate(p) && 0 <= p.year <= 9999
    ensures var s := Typed(p).0; IsShaped(s) && Fields(s) == p.(second := 0) && IsRealDate(p.(second := 0))
    ensures var s := Typed(p).1; IsShaped(s) && Fields(s) == p
  {
    MinutesAreShaped(p);
    PaddedTwo(p.second);
    hide Minutes, Padded, Value, IsDigit;
    var m, sec := Minutes(p), Padded(p.second, 2);
    var s := m + ":" + sec;
    assert s[17..19] == sec && s[16] == ':' && s[..16] == m;
    SameFields(m, s);
  }

  lemma SameFields(m: string, s: string)
    requires |m| == 16 && IsShaped(m) && |s| == 19 && s[..16] == m && s[16] == ':' && DigitsAt(s, 17, 2)
    ensures IsShaped(s) && Fields(s) == Fields(m).(second := Value(s[17..19]))
  {
    hide Value, IsDigit;
    assert s[0..4] == m[0..4] && s[5..7] == m[5..7] && s[8..10] == m[8..10];
    assert s[11..13] == m[11..13] && s[14..16] == m[14..16];
    assert s[4] == m[4] && s[7] == m[7] && s[10] == m[10] && s[13] == m[13];
  }

  /** An absent, empty or unreadable instant shows nothing. */
  lemma ShowsNothingExactly(parse: string -> Option<int>, iso: Option<string>)
    ensures IsoToUtcInput(parse, iso) == "" <==> iso.None? || iso.value == "" || parse(iso.value).None?
  {
  }

  lemma IsoOfInstant(p: Parts)
    requires IsRealDate(p)
    ensures ToIso(Instant(p)) == Minutes(p) + ":" + Padded(p.second, 2) + ".000Z"
  {
    InstantReadsBack(p);
    hide Readback, Minutes, IsRealDate;
    hide MakeDay, Padded;
    var seconds := MakeDay(p.year, p.month - 1, p.day) * 86400 + p.hour * 3600 + p.minute * 60 + p.second;
    ModSecond(Instant(p), seconds, 0);
    ZeroMillis();
  }

  lemma ZeroMillis()
    ensures Padded(0, 3) == "000"
  {
    assert Padded(0, 1) == "0" && Padded(0, 2) == "00";
  }

  /** Editing a stored deadline shows the minutes that were typed. */
  lemma InputComesBack(parse: string -> Option<int>, value: string)
    requires ReadsIso(parse) && IsAccepted(value)
    ensures IsoToUtcInput(parse, UtcInputToIso(value)) == Trim(value)[..16]
  {
    hide Trim, IsShaped, Fields, IsRealDate, UtcInputToIso, ToIso, SecondsText, Instant;
    AcceptsRealDates(value);
    AcceptedTextIsKept(value);
    ShapedLength(Trim(value));
    var p := Fields(Trim(value));
    YearFits(Trim(value));
    InstantInRange(p);
    assert parse(ToIso(Instant(p))) == Some(Instant(p));
  }

  lemma ShapedLength(s: string)
    requires IsShaped(s)
    ensures |s| >= 16
  {
  }

  predicate HasPlainYear(t: int) {
    100 <= Readback(t).year <= 9999
  }

  lemma PaddedTwo(n: int)
    requires 0 <= n < 100
    ensures (forall c :: c in Padded(n, 2) ==> IsDigit(c)) && Value(Padded(n, 2)) == n
  {
    assert Pow10(1) == 10 && Pow10(2) == 100;
    ValuePadded(n, 2);
  }

  lemma PaddedFour(n: int)
    requires 0 <= n < 10000
    ensures (forall c :: c in Padded(n, 4) ==> IsDigit(c)) && Value(Padded(n, 4)) == n
  {
    assert Pow10(1) == 10 && Pow10(2) == 100 && Pow10(3) == 1000 && Pow10(4) == 10000;
    ValuePadded(n, 4);
  }

  lemma MinutesAreShaped(p: Parts)
    requires IsRealDate(p) && 0 <= p.year <= 9999
    ensures var s := Minutes(p); |s| == 16 && IsShaped(s) && Fields(s) == p.(second := 0)
  {
    var s := Minutes(p);
    PaddedFour(p.year);
    PaddedTwo(p.month);
    PaddedTwo(p.day);
    PaddedTwo(p.hour);
    PaddedTwo(p.minute);
    hide Padded, Value, IsDigit, IsRealDate;
    assert s[0..4] == Padded(p.year, 4) && s[5..7] == Padded(p.month, 2) && s[8..10] == Padded(p.day, 2);
    assert s[11..13] == Padded(p.hour, 2) && s[14..16] == Padded(p.minute, 2);
  }

  lemma DigitIsNoSpace(s: string, i: nat, n: nat, k: nat)
    requires DigitsAt(s, i, n) && k < n
    ensures !IsSpace(s[i + k])
  {
    assert s[i..i + n][k] == s[i + k];
    assert s[i + k] in s[i..i + n] && IsDigit(s[i + k]);
  }

  lemma ShapedIsTrimmed(s: string)
    requires IsShaped(s) && |s| == 16
    ensures Trim(s) == s
  {
    DigitIsNoSpace(s, 0, 4, 0);
    DigitIsNoSpace(s, 14, 2, 1);
  }

  lemma ReadsBack(parse: string -> Option<int>, t: int)
    requires ReadsIso(parse) && -MAX_TIME <= t <= MAX_TIME && HasPlainYear(t)
    ensures IsRealDate(Readback(t)) && IsoToUtcInput(parse, Some(ToIso(t))) == Minutes(Readback(t))
  {
    ReadbackIsReal(t);
    MinutesAreShaped(Readback(t));
    hide Minutes, Readback, IsRealDate, IsShaped, Fields;
    assert parse(ToIso(t)) == Some(t);
  }

  lemma RealWithoutSeconds(p: Parts)
    requires IsRealDate(p)
    ensures IsRealDate(p.(second := 0))
  {
  }

  lemma ModOfDay(t: int)
    ensures t % 60000 == t % MS_PER_DAY % 60000 && t % 1000 == t % MS_PER_DAY % 1000
  {
    var day, r := t / MS_PER_DAY, t % MS_PER_DAY;
    var minutes, seconds := 1440 * day + r / 60000, 86400 * day + r / 1000;
    ModMinute(t, minutes, r % 60000);
    ModSecond(t, seconds, r % 1000);
  }

  lemma ModMinute(t: int, q: int, r: int)
    requires t == 60000 * q + r && 0 <= r < 60000
    ensures t % 60000 == r
  {
  }

  lemma ModSecond(t: int, q: int, r: int)
    requires t == 1000 * q + r && 0 <= r < 1000
    ensures t % 1000 == r
  {
  }

  lemma MinuteInstant(t: int)
    ensures Instant(Readback(t).(second := 0)) == t - t % 60000
  {
    ReadbackNamesTheInstant(t);
    var p, r := Readback(t), t % MS_PER_DAY;
    assert p.second == r / 1000 % 60;
    hide Readback, MakeDay;
    MillisOfMinute(r);
    ModOfDay(t);
    assert Instant(p) == Instant(p.(second := 0)) + p.second * 1000;
  }

  lemma MillisOfMinute(r: int)
    requires 0 <= r
    ensures r % 60000 == r / 1000 % 60 * 1000 + r % 1000
  {
    var s := r / 1000;
    assert r == 1000 * s + r % 1000 && s == 60 * (s / 60) + s % 60;
    assert r == 60000 * (s / 60) + (s % 60 * 1000 + r % 1000);
  }

  /** What the form shows for an instant is accepted again, and stored as that instant's minute. */
  lemma MinuteComesBack(parse: string -> Option<int>, t: int)
    requires ReadsIso(parse) && -MAX_TIME <= t <= MAX_TIME && HasPlainYear(t)
    ensures UtcInputToIso(IsoToUtcInput(parse, Some(ToIso(t)))) == Some(ToIso(t - t % 60000))
  {
    var p := Readback(t);
    ReadbackIsReal(t);
    ReadsBack(parse, t);
    hide IsoToUtcInput;
    MinutesAreShaped(p);
    hide Minutes, IsRealDate, Readback, ToIso, UtcInputToIso;
    var s := Minutes(p);
    ShapedIsTrimmed(s);
    hide Trim, IsShaped, Fields;
    AcceptsRealDates(s);
    RealWithoutSeconds(p);
    MinuteInstant(t);
  }

  lemma {:induction false} TrimEndKeepsHead(s: string)
    requires s != "" && !IsSpace(s[0])
    ensures TrimEnd(s) != "" && TrimEnd(s)[0] == s[0]
  {
    if IsSpace(s[|s| - 1]) {
      TrimEndKeepsHead(s[..|s| - 1]);
    }
  }

  lemma FirstIsDigit(s: string)
    requires IsShaped(s)
    ensures IsDigit(s[0])
  {
    var year := s[0..4];
    assert year[0] == s[0] && year[0] in year && DigitsAt(s, 0, 4);
  }

  lemma SignedIsNotShaped(s: string)
    requires s != "" && (s[0] == '-' || s[0] == '+')
    ensures !IsShaped(Trim(s))
  {
    TrimEndKeepsHead(s);
    var t := Trim(s);
    assert t[0] == s[0];
    if IsShaped(t) {
      FirstIsDigit(t);
      assert false;
    }
  }

  lemma IsoHead(t: int)
    requires Readback(t).year < 0 || Readback(t).year > 9999
    ensures var s := ToIso(t)[..16]; s[0] == '-' || s[0] == '+'
  {
    hide Readback, Padded, IsRealDate;
    ReadbackIsReal(t);
  }

  /** What the form shows for any other instant, with a year before 100 or of more than four digits, is refused. */
  lemma OtherYearsAreRefused(parse: string -> Option<int>, t: int)
    requires ReadsIso(parse) && -MAX_TIME <= t <= MAX_TIME && !HasPlainYear(t)
    ensures UtcInputToIso(IsoToUtcInput(parse, Some(ToIso(t)))) == None
  {
    hide Trim, IsShaped, Readback, IsRealDate, DateUtc, Instant, Minutes, ToIso, UtcInputToIso;
    var p, s := Readback(t), ToIso(t)[..16];
    ReadbackIsReal(t);
    assert parse(ToIso(t)) == Some(t);
    AcceptsRealDates(s);
    if 0 <= p.year <= 9999 {
      IsoShowsMinutes(t);
      MinutesAreShaped(p);
      ShapedIsTrimmed(s);
    } else {
      IsoHead(t);
      SignedIsNotShaped(s);
    }
  }

  lemma IsoShowsMinutes(t: int)
    requires 0 <= Readback(t).year <= 9999
    ensures IsRealDate(Readback(t)) && ToIso(t)[..16] == Minutes(Readback(t))
  {
    hide Readback, Padded, IsRealDate;
    ReadbackIsReal(t);
  }

  // ---- the parser asked for exists --------------------------------------------------------------

  lemma PaddedIsInjective(a: nat, b: nat, w: nat)
    requires a < Pow10(w) && b < Pow10(w) && Padded(a, w) == Padded(b, w)
    ensures a == b
  {
    hide Padded, Pow10, Value;
    ValuePadded(a, w);
    ValuePadded(b, w);
  }

  lemma Powers()
    ensures Pow10(2) == 100 && Pow10(3) == 1000 && Pow10(4) == 10000 && Pow10(6) == 1000000
  {
    assert Pow10(1) == 10 && Pow10(2) == 100 && Pow10(3) == 1000 && Pow10(4) == 10000 && Pow10(5) == 100000;
  }

  lemma PaddedStartsWithDigit(n: nat, w: nat)
    requires n < Pow10(w) && w > 0
    ensures IsDigit(Padded(n, w)[0])
  {
    hide Padded, Pow10, Value, IsDigit;
    ValuePadded(n, w);
    assert Padded(n, w)[0] in Padded(n, w);
  }

  predicate HasSixDigits(y: int) {
    -1000000 < y < 1000000
  }

  /** The first character tells the three kinds of year apart. */
  lemma YearTextHead(y: int)
    requires HasSixDigits(y)
    ensures 0 <= y <= 9999 ==> IsDigit(YearText(y)[0])
    ensures y < 0 ==> YearText(y)[0] == '-' && YearText(y)[1..] == Padded(-y, 6)
    ensures y > 9999 ==> YearText(y)[0] == '+' && YearText(y)[1..] == Padded(y, 6)
  {
    hide Padded, Pow10, IsDigit;
    Powers();
    if 0 <= y <= 9999 {
      PaddedStartsWithDigit(y, 4);
    }
  }

  lemma YearTextIsInjective(y: int, z: int)
    requires HasSixDigits(y) && HasSixDigits(z) && YearText(y) == YearText(z)
    ensures y == z
  {
    hide Padded, Pow10;
    Powers();
    YearTextHead(y);
    YearTextHead(z);
    if 0 <= y <= 9999 && 0 <= z <= 9999 {
      PaddedIsInjective(y, z, 4);
    } else if y < 0 && z < 0 {
      PaddedIsInjective(-y, -z, 6);
    } else if y > 9999 && z > 9999 {
      PaddedIsInjective(y, z, 6);
    }
  }

  /** What follows the year in an ISO string has 20 characters. */
  function AfterYear(p: Parts, milli: nat): (r: string)
    requires IsRealDate(p)
    ensures |r| == 20
  {
    "-" + Padded(p.month, 2) + "-" + Padded(p.day, 2) + "T" + Padded(p.hour, 2) + ":" + Padded(p.minute, 2)
    + ":" + Padded(p.second, 2) + "." + Padded(milli, 3) + "Z"
  }

  lemma IsoSplits(t: int)
    ensures IsRealDate(Readback(t)) && ToIso(t) == YearText(Readback(t).year) + AfterYear(Readback(t), t % 1000)
  {
    hide Readback, YearText, Padded, IsRealDate;
    ReadbackIsReal(t);
  }

  lemma FieldsOfIso(p: Parts, milli: nat)
    requires IsRealDate(p)
    ensures var s := AfterYear(p, milli);
            && s[1..3] == Padded(p.month, 2) && s[4..6] == Padded(p.day, 2) && s[7..9] == Padded(p.hour, 2)
            && s[10..12] == Padded(p.minute, 2) && s[13..15] == Padded(p.second, 2) && s[16..19] == Padded(milli, 3)
  {
    hide Padded, IsRealDate;
  }

  lemma AfterYearIsInjective(p: Parts, a: nat, q: Parts, b: nat)
    requires IsRealDate(p) && IsRealDate(q) && a < 1000 && b < 1000 && AfterYear(p, a) == AfterYear(q, b)
    ensures p.(year := 0) == q.(year := 0) && a == b
  {
    FieldsOfIso(p, a);
    FieldsOfIso(q, b);
    SmallFields(p);
    SmallFields(q);
    Powers();
    hide Padded, Pow10, AfterYear, IsRealDate;
    PaddedIsInjective(p.month, q.month, 2);
    PaddedIsInjective(p.day, q.day, 2);
    PaddedIsInjective(p.hour, q.hour, 2);
    PaddedIsInjective(p.minute, q.minute, 2);
    PaddedIsInjective(p.second, q.second, 2);
    PaddedIsInjective(a, b, 3);
  }

  lemma SmallFields(p: Parts)
    requires IsRealDate(p)
    ensures 0 <= p.month < 100 && 0 <= p.day < 100 && 0 <= p.hour < 100 && 0 <= p.minute < 100 && 0 <= p.second < 100
  {
  }

  lemma DaysOfFarYears(y: int)
    ensures y >= 1000000 ==> DayFromYear(y) > 200000000
    ensures y <= -999999 ==> DayFromYear(y) < -200000000
  {
  }

  lemma RangeHasSixDigits(t: int)
    requires -MAX_TIME <= t <= MAX_TIME
    ensures HasSixDigits(Readback(t).year)
  {
    hide DayFromYear, MonthOf, MonthStart, IsLeap, YearOf;
    var day := t / MS_PER_DAY;
    var y := YearOf(day);
    YearOfIs(day, y);
    DaysOfFarYears(y);
    DaysOfFarYears(y + 1);
  }

  /** Two instants of the range are never printed alike. */
  lemma ToIsoIsInjective(t: int, u: int)
    requires -MAX_TIME <= t <= MAX_TIME && -MAX_TIME <= u <= MAX_TIME && ToIso(t) == ToIso(u)
    ensures t == u
  {
    hide ToIso, Readback, YearText, AfterYear, Instant, IsRealDate, HasSixDigits;
    var p, q := Readback(t), Readback(u);
    IsoSplits(t);
    IsoSplits(u);
    var x, y := YearText(p.year), YearText(q.year);
    var a, b := AfterYear(p, t % 1000), AfterYear(q, u % 1000);
    assert x == (x + a)[..|x|] && a == (x + a)[|x|..] && y == (y + b)[..|y|] && b == (y + b)[|y|..];
    assert |x| == |y|;
    RangeHasSixDigits(t);
    RangeHasSixDigits(u);
    YearTextIsInjective(p.year, q.year);
    AfterYearIsInjective(p, t % 1000, q, u % 1000);
    assert p == p.(year := 0).(year := p.year) && q == q.(year := 0).(year := q.year);
    ReadbackNamesTheInstant(t);
    ReadbackNamesTheInstant(u);
  }

  /** A parser that knows the printed instants and nothing else. */
  ghost function IsoParser(s: string): Option<int> {
    if exists t: int :: -MAX_TIME <= t <= MAX_TIME && ToIso(t) == s then
      var t: int :| -MAX_TIME <= t <= MAX_TIME && ToIso(t) == s;
      Some(t)
    else None
  }

  /** The requirement on the platform's parser can be met. */
  lemma SomeParserReadsIso()
    ensures ReadsIso(IsoParser)
  {
    hide ToIso;
    forall t | -MAX_TIME <= t <= MAX_TIME ensures IsoParser(ToIso(t)) == Some(t) {
      var s := ToIso(t);
      var u := IsoParser(s);
      assert u.Some?;
      ToIsoIsInjective(t, u.value);
    }
  }
}
