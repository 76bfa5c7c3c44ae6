/**
 * Calendar arithmetic in the way Python's `datetime` does it, just enough for the calendar,
 * weather and event handlers: day numbers (days since 0001-01-01, Python's `toordinal() - 1`,
 * so Monday is weekday 0), instants (seconds since 0001-01-01T00:00:00 UTC), parsing of the
 * zero-padded `%Y-%m-%d`, `%H:%M` and `%H:%M:%S` forms, and the `strftime` pieces the
 * handlers print.
 */
module Clock {
  import opened Wrappers
  import opened Text

  const SecondsPerMinute: int := 60
  const SecondsPerHour: int := 3600
  const SecondsPerDay: int := 86400

  predicate IsLeap(y: int) {
    y % 4 == 0 && (y % 100 != 0 || y % 400 == 0)
  }

  function DaysInMonth(y: int, m: int): int {
    if m == 2 then (if IsLeap(y) then 29 else 28)
    else if m == 4 || m == 6 || m == 9 || m == 11 then 30
    else 31
  }

  /** Days in the months before month `m` of a common year. */
  function CommonDaysBeforeMonth(m: int): int {
    if m <= 1 then 0 else if m == 2 then 31 else if m == 3 then 59 else if m == 4 then 90
    else if m == 5 then 120 else if m == 6 then 151 else if m == 7 then 181 else if m == 8 then 212
    else if m == 9 then 243 else if m == 10 then 273 else if m == 11 then 304 else 334
  }

  function DaysBeforeMonth(y: int, m: int): int {
    CommonDaysBeforeMonth(m) + (if m > 2 && IsLeap(y) then 1 else 0)
  }

  function DaysBeforeYear(y: int): int {
    var p := y - 1;
    p * 365 + p / 4 - p / 100 + p / 400
  }

  predicate ValidDate(y: int, m: int, d: int) {
    1 <= y <= 9999 && 1 <= m <= 12 && 1 <= d <= DaysInMonth(y, m)
  }

  /** The day number of a civil date. */
  function DayNumber(y: int, m: int, d: int): int {
    DaysBeforeYear(y) + DaysBeforeMonth(y, m) + d - 1
  }

  datatype Date = Date(year: int, month: int, day: int)

  /** The civil date of a day number (the algorithm of CPython's `_ord2ymd`). */
  function CivilFromDays(n: int): Date {
    var n400 := n / 146097;
    var r := n % 146097;
    var n100 := r / 36524;
    var r2 := r % 36524;
    var n4 := r2 / 1461;
    var r3 := r2 % 1461;
    var n1 := r3 / 365;
    var r4 := r3 % 365;
    var year := n400 * 400 + 1 + n100 * 100 + n4 * 4 + n1;
    if n1 == 4 || n100 == 4 then Date(year - 1, 12, 31)
    else
      var leap := n1 == 3 && (n4 != 24 || n100 == 3);
      var month := (r4 + 50) / 32;
      var preceding := CommonDaysBeforeMonth(month) + (if month > 2 && leap then 1 else 0);
      if preceding > r4 then
        var m := month - 1;
        var before := preceding - ((if m == 2 then (if leap then 29 else 28) else DaysInMonth(2001, m)));
        Date(year, m, r4 - before + 1)
      else Date(year, month, r4 - preceding + 1)
  }

  /** `weekday()`: Monday is 0, Saturday 5, Sunday 6. */
  function Weekday(n: int): (w: int)
    ensures 0 <= w < 7
  {
    n % 7
  }

  function DayOf(t: int): int { t / SecondsPerDay }

  function SecondOfDay(t: int): (s: int)
    ensures 0 <= s < SecondsPerDay
  {
    t % SecondsPerDay
  }

  /** Midnight of day `n`. */
  function Midnight(n: int): int { n * SecondsPerDay }

  lemma MidnightPlusTimeOfDay(t: int)
    ensures Midnight(DayOf(t)) + SecondOfDay(t) == t
  {
  }

  // ---------------------------------------------------------------------------
  // strptime on the zero-padded forms

  /** The two-digit number at `s[i..i + 2]`, if both characters are digits. */
  function TwoDigitsAt(s: string, i: nat): (r: Option<nat>)
    ensures r.Some? ==> r.value < 100
  {
    if i + 2 <= |s| && IsDigit(s[i]) && IsDigit(s[i + 1]) then Some(DigitValue(s[i]) * 10 + DigitValue(s[i + 1]))
    else None
  }

  /** `datetime.strptime(s, "%Y-%m-%d")` as a day number, for the zero-padded form. */
  function ParseIsoDate(s: string): (r: Option<int>)
    ensures r.Some? ==> |s| == 10 && s[4] == '-' && s[7] == '-'
  {
    if |s| == 10 && s[4] == '-' && s[7] == '-' && TwoDigitsAt(s, 0).Some? && TwoDigitsAt(s, 2).Some?
       && TwoDigitsAt(s, 5).Some? && TwoDigitsAt(s, 8).Some?
    then
      var y := TwoDigitsAt(s, 0).value * 100 + TwoDigitsAt(s, 2).value;
      var m := TwoDigitsAt(s, 5).value;
      var d := TwoDigitsAt(s, 8).value;
      if ValidDate(y, m, d) then Some(DayNumber(y, m, d)) else None
    else None
  }

  /** `strptime(s, "%H:%M")` as seconds since midnight, for the zero-padded form. */
  function ParseHourMinute(s: string): (r: Option<int>)
    ensures r.Some? ==> 0 <= r.value < SecondsPerDay
  {
    if |s| == 5 && s[2] == ':' && TwoDigitsAt(s, 0).Some? && TwoDigitsAt(s, 3).Some?
       && TwoDigitsAt(s, 0).value <= 23 && TwoDigitsAt(s, 3).value <= 59
    then Some(TwoDigitsAt(s, 0).value * SecondsPerHour + TwoDigitsAt(s, 3).value * SecondsPerMinute)
    else None
  }

  /** `strptime(s, "%H:%M:%S")` as seconds since midnight, for the zero-padded form. */
  function ParseHourMinuteSecond(s: string): (r: Option<int>)
    ensures r.Some? ==> 0 <= r.value < SecondsPerDay
  {
    if |s| == 8 && s[5] == ':' && ParseHourMinute(s[..5]).Some? && TwoDigitsAt(s, 6).Some?
       && TwoDigitsAt(s, 6).value <= 59
    then Some(ParseHourMinute(s[..5]).value + TwoDigitsAt(s, 6).value)
    else None
  }

  /** `strptime(s, "%Y-%m-%d" + [sep] + "%H:%M:%S")` as an instant. */
  function ParseDateTime(s: string, sep: char): (r: Option<int>)
    ensures r.Some? ==> |s| == 19 && s[10] == sep
  {
    if |s| == 19 && s[10] == sep && ParseIsoDate(s[..10]).Some? && ParseHourMinuteSecond(s[11..]).Some?
    then Some(Midnight(ParseIsoDate(s[..10]).value) + ParseHourMinuteSecond(s[11..]).value)
    else None
  }

  lemma TwoDigitsOfPad2(n: nat, s: string, i: nat)
    requires n < 100 && i + 2 <= |s| && s[i..i + 2] == Pad2(n)
    ensures TwoDigitsAt(s, i) == Some(n)
  {
    var p := Pad2(n);
    assert p[..1] == [p[0]];
    assert DigitsToNat(p) == DigitsToNat(p[..1]) * 10 + DigitValue(p[1]);
    assert s[i] == p[0] && s[i + 1] == p[1];
  }

  /**
   * Formatting an hour and a minute as `f"{h:02d}:{m:02d}"` and parsing the text back with
   * `%H:%M` succeeds exactly for a valid time of day, and gives that time back.
   */
  lemma HourMinuteRoundTrip(h: nat, m: nat)
    requires h < 100 && m < 100
    ensures ParseHourMinute(Pad2(h) + ":" + Pad2(m)).Some? <==> h <= 23 && m <= 59
    ensures h <= 23 && m <= 59 ==>
      ParseHourMinute(Pad2(h) + ":" + Pad2(m)) == Some(h * SecondsPerHour + m * SecondsPerMinute)
  {
    var s := Pad2(h) + ":" + Pad2(m);
    assert s[0..2] == Pad2(h);
    assert s[3..5] == Pad2(m);
    TwoDigitsOfPad2(h, s, 0);
    TwoDigitsOfPad2(m, s, 3);
  }

  // ---------------------------------------------------------------------------
  // strftime pieces

  function MonthName(m: int): string {
    if m == 1 then "January" else if m == 2 then "February" else if m == 3 then "March"
    else if m == 4 then "April" else if m == 5 then "May" else if m == 6 then "June"
    else if m == 7 then "July" else if m == 8 then "August" else if m == 9 then "September"
    else if m == 10 then "October" else if m == 11 then "November" else "December"
  }

  function WeekdayName(w: int): string {
    if w == 0 then "Monday" else if w == 1 then "Tuesday" else if w == 2 then "Wednesday"
    else if w == 3 then "Thursday" else if w == 4 then "Friday" else if w == 5 then "Saturday"
    else "Sunday"
  }

  function NonNeg(i: int): nat { if i < 0 then 0 else i }

  /** `strftime("%Y-%m-%d")` of day `n`. */
  function IsoDate(n: int): string {
    var d := CivilFromDays(n);
    Pad4(NonNeg(d.year)) + "-" + Pad2(NonNeg(d.month)) + "-" + Pad2(NonNeg(d.day))
  }

  /** The hour on a 12-hour clock face, `%I` without padding. */
  function Hour12(h: int): (r: int)
    requires 0 <= h < 24
    ensures 1 <= r <= 12
  {
    if h % 12 == 0 then 12 else h % 12
  }

  function AmPm(h: int): string { if h < 12 then "AM" else "PM" }

  /** `strftime("%-I:%M %p")` of instant `t`; `%I:%M %p` with its leading zero stripped is the same text. */
  function ClockFace(t: int): string {
    var s := SecondOfDay(t);
    var h := s / SecondsPerHour;
    NatToString(Hour12(h)) + ":" + Pad2((s % SecondsPerHour) / SecondsPerMinute) + " " + AmPm(h)
  }

  /** `strftime("%d %B")` of instant `t`. */
  function DayMonth(t: int): string {
    var d := CivilFromDays(DayOf(t));
    Pad2(NonNeg(d.day)) + " " + MonthName(d.month)
  }

  /** `strftime("%B %d")` of instant `t`. */
  function MonthDay(t: int): string {
    var d := CivilFromDays(DayOf(t));
    MonthName(d.month) + " " + Pad2(NonNeg(d.day))
  }

  /** `strftime("%A, %B %d")` of instant `t`. */
  function WeekdayMonthDay(t: int): string {
    WeekdayName(Weekday(DayOf(t))) + ", " + MonthDay(t)
  }
}
