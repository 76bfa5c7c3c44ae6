/**
 * The deterministic parts of `GoogleCalendarHandler`: the time and reminder scanners the
 * handler applies to free text, the conflict window, hourly free-slot search, and the edits that
 * move an event while keeping its duration. The primary calendar the service holds is the
 * `events` field of the class; listing, fetching by id, updating and deleting are operations on
 * that sequence. Instants are seconds (see module Clock) and every `dateTime` is read as UTC.
 */
module Calendar {
  import opened Wrappers
  import opened Text
  import Clock

  // ---------------------------------------------------------------------------
  // Events and listings

  /** An event boundary: a `dateTime` instant, or a whole-day `date`, which the code reads as that midnight. */
  datatype Stamp = Timed(at: int) | AllDay(day: int)

  function InstantOf(s: Stamp): int {
    match s
    case Timed(t) => t
    case AllDay(d) => Clock.Midnight(d)
  }

  datatype CalEvent = CalEvent(
    id: string, summary: string, location: Option<string>, description: Option<string>,
    start: Stamp, end: Stamp, reminder: Option<nat>)

  /** The service's listing filter: events that end after `lo` and start before `hi`. */
  predicate Overlaps(e: CalEvent, lo: int, hi: int) {
    InstantOf(e.end) > lo && InstantOf(e.start) < hi
  }

  /** `events().list(timeMin=lo, timeMax=hi)`: the overlapping events, in calendar order. */
  function Listing(events: seq<CalEvent>, lo: int, hi: int): (r: seq<CalEvent>)
    ensures |r| <= |events|
    ensures forall e :: e in r <==> e in events && Overlaps(e, lo, hi)
  {
    if events == [] then []
    else (if Overlaps(events[0], lo, hi) then [events[0]] else []) + Listing(events[1..], lo, hi)
  }

  /** `events().get(eventId=id)`: the position of the event with that id. */
  function IndexOfId(events: seq<CalEvent>, id: string): (r: Option<nat>)
    ensures r.Some? ==> r.value < |events| && events[r.value].id == id
    ensures r.None? ==> forall i :: 0 <= i < |events| ==> events[i].id != id
  {
    if events == [] then None
    else if events[0].id == id then Some(0)
    else match IndexOfId(events[1..], id)
      case None => None
      case Some(i) => Some(i + 1)
  }

  // ---------------------------------------------------------------------------
  // The time scanner

  datatype Meridiem = Am | Pm

  /** What `re.search(r'(\d{1,2}):?(\d{2})?\s*(am|pm)?', text)` captures. */
  datatype ClockReading = ClockReading(hour: nat, minute: nat, meridiem: Option<Meridiem>)

  function FirstDigitFrom(s: string, i: nat): (r: Option<nat>)
    ensures r.Some? ==> i <= r.value < |s| && IsDigit(s[r.value])
    ensures r.Some? ==> forall j :: i <= j < r.value ==> !IsDigit(s[j])
    ensures r.None? ==> forall j :: i <= j < |s| ==> !IsDigit(s[j])
    decreases |s| - i
  {
    if i >= |s| then None
    else if IsDigit(s[i]) then Some(i)
    else FirstDigitFrom(s, i + 1)
  }

  /**
   * The time pattern, searched in `t`. Every part after the first digit is optional and
   * greedy, so the leftmost match starts at the first digit and takes, in turn, one or two hour
   * digits, a colon if present, two minute digits if present, any whitespace and `am` or `pm`.
   */
  function ScanTime(t: string): (r: Option<ClockReading>)
    ensures r.Some? <==> exists i :: 0 <= i < |t| && IsDigit(t[i])
    ensures r.Some? ==> r.value.hour < 100 && r.value.minute < 100
  {
    match FirstDigitFrom(t, 0)
    case None => None
    case Some(i) =>
      var two := i + 1 < |t| && IsDigit(t[i + 1]);
      var hour := if two then DigitValue(t[i]) * 10 + DigitValue(t[i + 1]) else DigitValue(t[i]);
      var j := if two then i + 2 else i + 1;
      var k := if j < |t| && t[j] == ':' then j + 1 else j;
      var minute := Clock.TwoDigitsAt(t, k);
      var l := if minute.Some? then k + 2 else k;
      var rest := t[l..][LeadingSpaces(t[l..])..];
      var meridiem := if StartsWith(rest, "am") then Some(Am) else if StartsWith(rest, "pm") then Some(Pm) else None;
      Some(ClockReading(hour, minute.GetOr(0), meridiem))
  }

  /**
   * The fields of a match that starts at the first digit `i` of `t`: the hour is the one or two
   * digits there, the minute the two digits after an optional colon, or 0 when there are none.
   */
  lemma ScanTimeReading(t: string, i: nat)
    requires i < |t| && IsDigit(t[i])
    requires forall j :: 0 <= j < i ==> !IsDigit(t[j])
    ensures ScanTime(t).Some?
    ensures i + 1 < |t| && IsDigit(t[i + 1]) ==> ScanTime(t).value.hour == DigitValue(t[i]) * 10 + DigitValue(t[i + 1])
    ensures !(i + 1 < |t| && IsDigit(t[i + 1])) ==> ScanTime(t).value.hour == DigitValue(t[i])
    ensures var j := if i + 1 < |t| && IsDigit(t[i + 1]) then i + 2 else i + 1;
      var k := if j < |t| && t[j] == ':' then j + 1 else j;
      ScanTime(t).value.minute == (if Clock.TwoDigitsAt(t, k).Some? then Clock.TwoDigitsAt(t, k).value else 0)
  {
    assert FirstDigitFrom(t, 0) == Some(i);
  }

  /**
   * The 12-hour correction: "pm" before 12 adds twelve, "12 am" is midnight, anything else is
   * kept. On a proper 12-hour reading this is the usual 24-hour clock.
   */
  function To24Hour(r: ClockReading): (h: nat)
    ensures r.meridiem == Some(Pm) && r.hour < 12 ==> h == r.hour + 12
    ensures r.meridiem == Some(Am) && r.hour == 12 ==> h == 0
    ensures r.meridiem.None? || (r.meridiem == Some(Pm) && r.hour >= 12) || (r.meridiem == Some(Am) && r.hour != 12) ==> h == r.hour
    ensures 1 <= r.hour <= 12 && r.meridiem == Some(Am) ==> h == r.hour % 12
    ensures 1 <= r.hour <= 12 && r.meridiem == Some(Pm) ==> h == r.hour % 12 + 12
  {
    if r.meridiem == Some(Pm) && r.hour < 12 then r.hour + 12
    else if r.meridiem == Some(Am) && r.hour == 12 then 0
    else r.hour
  }

  /** `f"{hour:02d}:{minute:02d}"`. */
  function HourMinuteText(h: nat, m: nat): string {
    Pad2(h) + ":" + Pad2(m)
  }

  /** The `HH:MM` text `insert_event` derives from a time string, "12:00" when nothing matches. */
  function NormaliseTime(time: string): (r: string)
    ensures |r| == 5 && r[2] == ':'
    ensures (forall i :: 0 <= i < |time| ==> !IsDigit(time[i])) ==> r == "12:00"
    ensures ScanTime(Lower(time)).None? ==> r == "12:00"
    ensures ScanTime(Lower(time)).Some? ==>
      r == HourMinuteText(To24Hour(ScanTime(Lower(time)).value), ScanTime(Lower(time)).value.minute)
  {
    match ScanTime(Lower(time))
    case None => "12:00"
    case Some(c) => HourMinuteText(To24Hour(c), c.minute)
  }

  lemma To24HourBelowHundred(c: ClockReading)
    requires c.hour < 100
    ensures To24Hour(c) < 100
  {
  }

  /**
   * The normalised text parses back with `%H:%M` exactly when the corrected reading is a valid
   * time of day, and then gives that time.
   */
  lemma NormalisedTimeParses(c: ClockReading)
    requires c.hour < 100 && c.minute < 100
    ensures Clock.ParseHourMinute(HourMinuteText(To24Hour(c), c.minute)).Some? <==> To24Hour(c) <= 23 && c.minute <= 59
    ensures To24Hour(c) <= 23 && c.minute <= 59 ==>
      Clock.ParseHourMinute(HourMinuteText(To24Hour(c), c.minute)) == Some(To24Hour(c) * 3600 + c.minute * 60)
  {
    Clock.HourMinuteRoundTrip(To24Hour(c), c.minute);
  }

  lemma ScanTimeExample1()
    ensures ScanTime("3:30 pm") == Some(ClockReading(3, 30, Some(Pm)))
  {
    var t := "3:30 pm";
    assert FirstDigitFrom(t, 0) == Some(0);
    assert Clock.TwoDigitsAt(t, 2) == Some(30);
    assert t[4..] == " pm";
    assert LeadingSpaces(" pm") == 1;
    assert " pm"[1..] == "pm";
  }

  lemma ScanTimeExample2()
    ensures NormaliseTime("15:45") == "15:45"
  {
    var t := "15:45";
    assert Lower(t) == t by { LowerOfTwentyFourHourText(); }
    assert ScanTime(t) == Some(ClockReading(15, 45, None)) by { ScanOfTwentyFourHourText(); }
    assert HourMinuteText(15, 45) == t by { TextOfFifteenFortyFive(); }
  }

  lemma LowerOfTwentyFourHourText()
    ensures Lower("15:45") == "15:45"
  {
    var t := "15:45";
    assert forall i :: 0 <= i < |t| ==> LowerChar(t[i]) == t[i];
  }

  lemma ScanOfTwentyFourHourText()
    ensures ScanTime("15:45") == Some(ClockReading(15, 45, None))
  {
    var t := "15:45";
    assert FirstDigitFrom(t, 0) == Some(0);
    assert Clock.TwoDigitsAt(t, 3) == Some(45);
    assert t[5..] == [];
  }

  lemma TextOfFifteenFortyFive()
    ensures HourMinuteText(15, 45) == "15:45"
  {
    assert NatToString(1) == "1" && NatToString(4) == "4";
    assert NatToString(15) == "15" && NatToString(45) == "45";
  }

  // ---------------------------------------------------------------------------
  // The minutes scanner

  /** Length of the run of digits starting at `s[i]`. */
  function DigitRun(s: string, i: nat): (n: nat)
    requires i <= |s|
    ensures i + n <= |s|
    ensures forall j :: i <= j < i + n ==> IsDigit(s[j])
    ensures i + n == |s| || !IsDigit(s[i + n])
    ensures AllDigits(s[i..i + n])
    decreases |s| - i
  {
    if i == |s| || !IsDigit(s[i]) then 0
    else
      var m := DigitRun(s, i + 1);
      assert s[i..i + 1 + m] == [s[i]] + s[i + 1..i + 1 + m];
      1 + m
  }

  /** `(\d+)\s*minutes?` matches at `i`: a digit run, optional whitespace, then "minute". */
  predicate MinutesMatchAt(s: string, i: nat) {
    i < |s| && IsDigit(s[i])
    && var j := i + DigitRun(s, i);
       StartsWith(s[j..][LeadingSpaces(s[j..])..], "minute")
  }

  function MinutesValueAt(s: string, i: nat): nat
    requires i < |s|
  {
    var n := DigitRun(s, i);
    DigitsToNat(s[i..i + n])
  }

  /**
   * `re.search(r'(\d+)\s*minutes?', s)`: the number at the first position where the pattern
   * matches. A shorter digit run than the maximal one cannot be followed by whitespace or "m",
   * so each position admits only its maximal run.
   */
  function MinutesFrom(s: string, i: nat): (r: Option<nat>)
    ensures r.Some? ==> exists k :: i <= k < |s| && MinutesMatchAt(s, k) && r.value == MinutesValueAt(s, k)
    ensures r.None? ==> forall k :: i <= k < |s| ==> !MinutesMatchAt(s, k)
    decreases |s| - i
  {
    if i >= |s| then None
    else if MinutesMatchAt(s, i) then Some(MinutesValueAt(s, i))
    else MinutesFrom(s, i + 1)
  }

  function MinutesIn(s: string): Option<nat> {
    MinutesFrom(s, 0)
  }

  /** The reminder text the event handler stores, "<n> minutes before", scans back to `n`. */
  lemma {:induction false} StoredReminderScansBack(n: nat)
    ensures MinutesIn(NatToString(n) + " minutes before") == Some(n)
  {
    DigitsThenMinutes(NatToString(n), " minutes before");
  }

  /** A digit string followed by " minutes before" scans as that number at position 0. */
  lemma {:induction false} DigitsThenMinutes(digits: string, tail: string)
    requires IsDigitString(digits) && tail == " minutes before"
    ensures MinutesIn(digits + tail) == Some(DigitsToNat(digits))
  {
    var s := digits + tail;
    assert forall j :: 0 <= j < |digits| ==> s[j] == digits[j];
    assert s[|digits|] == ' ';
    DigitRunOverDigits(s, digits, 0);
    assert s[|digits|..] == tail;
    MinutesBeforeTail();
    assert tail[1..] == "minutes before";
    assert MinutesMatchAt(s, 0);
    assert s[0..|digits|] == digits;
  }

  lemma MinutesBeforeTail()
    ensures LeadingSpaces(" minutes before") == 1
    ensures StartsWith("minutes before", "minute")
  {
    assert " minutes before"[1..] == "minutes before";
  }

  lemma {:induction false} DigitRunOverDigits(s: string, digits: string, i: nat)
    requires IsDigitString(digits) && i <= |digits| < |s| && !IsDigit(s[|digits|])
    requires forall j :: 0 <= j < |digits| ==> s[j] == digits[j]
    ensures DigitRun(s, i) == |digits| - i
    decreases |digits| - i
  {
    if i < |digits| {
      assert IsDigit(s[i]) by { assert digits[i] == s[i]; }
      DigitRunOverDigits(s, digits, i + 1);
    }
  }

  /** `insert_event`'s reminder: the scanned minutes of a non-empty reminder, 10 otherwise. */
  function InsertReminderMinutes(reminder: Option<string>): nat {
    if reminder.Some? && reminder.value != [] then MinutesIn(reminder.value).GetOr(10) else 10
  }

  /** `update_event_field`'s reminder: the scanned minutes, else an all-digit value, else 10. */
  function FieldReminderMinutes(value: string): (n: nat)
    ensures value == [] ==> n == 10
    ensures value != [] && MinutesIn(value).Some? ==> n == MinutesIn(value).value
    ensures value != [] && MinutesIn(value).None? && IsDigitString(value) ==> n == DigitsToNat(value)
    ensures value != [] && MinutesIn(value).None? && !IsDigitString(value) ==> n == 10
  {
    if value == [] then 10
    else match MinutesIn(value)
      case Some(m) => m
      case None => if IsDigitString(value) then DigitsToNat(value) else 10
  }

  // ---------------------------------------------------------------------------
  // Dates and the conflict window

  /** A date string: `strptime(s, "%Y-%m-%d")`, and the date parser when that fails. */
  function DateArg(s: string, parseDate: string -> Option<int>): Option<int> {
    match Clock.ParseIsoDate(s)
    case Some(d) => Some(d)
    case None => parseDate(s)
  }

  /** `re.match(r'\d{4}-\d{2}-\d{2}', s)`: the text starts with a date-shaped prefix. */
  predicate IsoPrefix(s: string) {
    |s| >= 10 && IsDigit(s[0]) && IsDigit(s[1]) && IsDigit(s[2]) && IsDigit(s[3]) && s[4] == '-'
    && IsDigit(s[5]) && IsDigit(s[6]) && s[7] == '-' && IsDigit(s[8]) && IsDigit(s[9])
  }

  datatype ConflictCheck = Found(conflicts: seq<CalEvent>) | Clear | CheckFailed(message: string)

  const OneHour: int := 3600

  /** The events `check_for_conflicts` reports for a request at instant `t`: from an hour before to two hours after. */
  function ConflictWindow(events: seq<CalEvent>, t: int): (r: seq<CalEvent>)
    ensures forall e :: e in r <==> e in events && InstantOf(e.end) > t - OneHour && InstantOf(e.start) < t + 2 * OneHour
  {
    Listing(events, t - OneHour, t + 2 * OneHour)
  }

  /** The one-hour event 10:00-11:00 collides with a 10:30 request but not with one at 12:00. */
  lemma ConflictWindowExample(day: int, e: CalEvent)
    requires e.start == Timed(Clock.Midnight(day) + 10 * OneHour) && e.end == Timed(Clock.Midnight(day) + 11 * OneHour)
    ensures e in ConflictWindow([e], Clock.Midnight(day) + 10 * OneHour + 1800)
    ensures ConflictWindow([e], Clock.Midnight(day) + 12 * OneHour) == []
  {
    assert !Overlaps(e, Clock.Midnight(day) + 11 * OneHour, Clock.Midnight(day) + 14 * OneHour);
  }

  // ---------------------------------------------------------------------------
  // Moving an event

  /** The event starting at `newStart` with its duration kept, every other field as it was. */
  function MoveStart(e: CalEvent, newStart: int): (r: CalEvent)
    requires e.start.Timed? && e.end.Timed?
    ensures r.start == Timed(newStart) && r.end.Timed?
    ensures r.end.at - r.start.at == e.end.at - e.start.at
    ensures r.(start := e.start, end := e.end) == e
  {
    e.(start := Timed(newStart), end := Timed(newStart + (e.end.at - e.start.at)))
  }

  /** A reply of the form `(success, message)`. */
  datatype Reply = Reply(ok: bool, message: string)

  /** The outcome of editing one fetched event: the edited event, or the error reply. */
  datatype Edit = Edited(event: CalEvent) | NotEdited(message: string)

  const RescheduleError: string := "Error rescheduling event: "
  const UpdateError: string := "Error updating event: "
  const CancelError: string := "Error canceling event: "

  /**
   * The event `reschedule_event` makes of `e`, given the parsed date and time: checked in the
   * code's order (date, time, the event's timed bounds, `%H:%M` parsing of the corrected time),
   * it starts on the requested day at the requested time and keeps its duration.
   */
  function Rescheduled(e: CalEvent, target: Option<int>, reading: Option<ClockReading>): (r: Edit)
    ensures r.Edited? ==>
      target.Some? && reading.Some? && e.start.Timed? && e.end.Timed? && r.event.start.Timed? && r.event.end.Timed?
      && r.event.end.at - r.event.start.at == e.end.at - e.start.at
      && r.event.(start := e.start, end := e.end) == e
      && Clock.DayOf(r.event.start.at) == target.value
      && Clock.SecondOfDay(r.event.start.at) == To24Hour(reading.value) * 3600 + reading.value.minute * 60
    ensures target.None? ==> r == NotEdited("Could not parse the provided date")
    ensures target.Some? && reading.None? ==> r == NotEdited("Could not parse the provided time")
    ensures target.Some? && reading.Some? && !(e.start.Timed? && e.end.Timed?) ==> r == NotEdited(RescheduleError)
    ensures target.Some? && reading.Some? && e.start.Timed? && e.end.Timed? ==>
      (r.Edited? <==> Clock.ParseHourMinute(HourMinuteText(To24Hour(reading.value), reading.value.minute)).Some?)
    ensures target.Some? && reading.Some? && reading.value.hour < 100 && reading.value.minute < 100 && e.start.Timed? && e.end.Timed? ==>
      (r.Edited? <==> To24Hour(reading.value) <= 23 && reading.value.minute <= 59)
    ensures r.NotEdited? && target.Some? && reading.Some? ==> r == NotEdited(RescheduleError)
  {
    match target
    case None => NotEdited("Could not parse the provided date")
    case Some(day) =>
      match reading
      case None => NotEdited("Could not parse the provided time")
      case Some(c) =>
        if !(e.start.Timed? && e.end.Timed?) then NotEdited(RescheduleError)
        else
          match Clock.ParseHourMinute(HourMinuteText(To24Hour(c), c.minute))
          case None =>
            ParsesWhenInRange(c);
            NotEdited(RescheduleError)
          case Some(secs) =>
            NormalisedTimeStart(c, day, secs);
            ParsesWhenInRange(c);
            Edited(MoveStart(e, Clock.Midnight(day) + secs))
  }

  lemma ParsesWhenInRange(c: ClockReading)
    ensures c.hour < 100 && c.minute < 100 ==>
      (Clock.ParseHourMinute(HourMinuteText(To24Hour(c), c.minute)).Some? <==> To24Hour(c) <= 23 && c.minute <= 59)
  {
    if c.hour < 100 && c.minute < 100 {
      NormalisedTimeParses(c);
    }
  }

  /** The start `reschedule_event` computes lies on the requested day at the requested time. */
  lemma NormalisedTimeStart(c: ClockReading, day: int, secs: int)
    requires c.hour < 100 && c.minute < 100
    requires Clock.ParseHourMinute(HourMinuteText(To24Hour(c), c.minute)) == Some(secs)
    ensures Clock.DayOf(Clock.Midnight(day) + secs) == day
    ensures Clock.SecondOfDay(Clock.Midnight(day) + secs) == To24Hour(c) * 3600 + c.minute * 60
  {
    NormalisedTimeParses(c);
  }

  /** `reschedule_event`: the new calendar and reply. */
  function Reschedule(events: seq<CalEvent>, online: bool, parseDate: string -> Option<int>,
                      id: string, newDate: string, newTime: string): (r: (seq<CalEvent>, Reply))
    ensures r.1.ok <==> (online && IndexOfId(events, id).Some?
      && Rescheduled(events[IndexOfId(events, id).value], DateArg(newDate, parseDate), ScanTime(Lower(newTime))).Edited?)
    ensures !r.1.ok ==> r.0 == events
    ensures r.1.ok ==> var i := IndexOfId(events, id).value;
      var moved := Rescheduled(events[i], DateArg(newDate, parseDate), ScanTime(Lower(newTime)));
      moved.Edited? && r.0 == events[i := moved.event]
    ensures !online || IndexOfId(events, id).None? ==> r.1 == Reply(false, RescheduleError)
    ensures online && IndexOfId(events, id).Some? ==>
      var moved := Rescheduled(events[IndexOfId(events, id).value], DateArg(newDate, parseDate), ScanTime(Lower(newTime)));
      moved.NotEdited? ==> r.1 == Reply(false, moved.message)
  {
    if !online || IndexOfId(events, id).None? then (events, Reply(false, RescheduleError))
    else
      var i := IndexOfId(events, id).value;
      var e := events[i];
      match Rescheduled(e, DateArg(newDate, parseDate), ScanTime(Lower(newTime)))
      case NotEdited(message) => (events, Reply(false, message))
      case Edited(moved) =>
        var ns := moved.start.at;
        (events[i := moved],
         Reply(true, "Successfully rescheduled '" + e.summary + "' to " + Clock.MonthDay(ns) + " at " + Clock.ClockFace(ns) + "."))
  }

  /** The `date` branch of `update_event_field`: the new day, the time of day and the duration kept. */
  function DateEdit(e: CalEvent, value: string, parseDate: string -> Option<int>): (r: Edit)
    ensures DateArg(value, parseDate).None? ==> r == NotEdited("Could not parse the new date")
    ensures DateArg(value, parseDate).Some? ==> (r.Edited? <==> e.start.Timed? && e.end.Timed?)
    ensures DateArg(value, parseDate).Some? && r.NotEdited? ==> r == NotEdited(UpdateError)
    ensures r.Edited? ==>
      e.start.Timed? && e.end.Timed? && r.event.start.Timed? && r.event.end.Timed?
      && r.event.(start := e.start, end := e.end) == e
      && r.event.end.at - r.event.start.at == e.end.at - e.start.at
      && Clock.DayOf(r.event.start.at) == DateArg(value, parseDate).value
      && Clock.SecondOfDay(r.event.start.at) == Clock.SecondOfDay(e.start.at)
  {
    match DateArg(value, parseDate)
    case None => NotEdited("Could not parse the new date")
    case Some(day) =>
      if !(e.start.Timed? && e.end.Timed?) then NotEdited(UpdateError)
      else
        var t := Clock.Midnight(day) + Clock.SecondOfDay(e.start.at);
        assert Clock.DayOf(t) == day && Clock.SecondOfDay(t) == Clock.SecondOfDay(e.start.at);
        Edited(MoveStart(e, t))
  }

  /** The `time` branch of `update_event_field`: the scanned time of day, the day and the duration kept. */
  function TimeEdit(e: CalEvent, value: string): (r: Edit)
    ensures ScanTime(Lower(value)).None? ==> r == NotEdited("Could not parse the new time")
    ensures ScanTime(Lower(value)).Some? ==>
      var c := ScanTime(Lower(value)).value;
      r.Edited? <==> e.start.Timed? && e.end.Timed? && To24Hour(c) <= 23 && c.minute <= 59
    ensures ScanTime(Lower(value)).Some? && r.NotEdited? ==> r == NotEdited(UpdateError)
    ensures r.Edited? ==>
      var c := ScanTime(Lower(value)).value;
      e.start.Timed? && e.end.Timed? && r.event.start.Timed? && r.event.end.Timed?
      && r.event.(start := e.start, end := e.end) == e
      && r.event.end.at - r.event.start.at == e.end.at - e.start.at
      && Clock.DayOf(r.event.start.at) == Clock.DayOf(e.start.at)
      && Clock.SecondOfDay(r.event.start.at) == To24Hour(c) * 3600 + c.minute * 60
  {
    match ScanTime(Lower(value))
    case None => NotEdited("Could not parse the new time")
    case Some(c) =>
      if !(e.start.Timed? && e.end.Timed?) then NotEdited(UpdateError)
      else
        match Clock.ParseHourMinute(HourMinuteText(To24Hour(c), c.minute))
        case None =>
          NormalisedTimeParses(c);
          NotEdited(UpdateError)
        case Some(secs) =>
          NormalisedTimeParses(c);
          NormalisedTimeStart(c, Clock.DayOf(e.start.at), secs);
          Edited(MoveStart(e, Clock.Midnight(Clock.DayOf(e.start.at)) + secs))
  }

  /**
   * The event `update_event_field` makes of `e`. Names, locations and details are overwritten;
   * a date change keeps the time of day and a time change keeps the day, both keeping the
   * duration; a reminder becomes a single popup override; any other field name leaves the event
   * as it was.
   */
  function EditedField(e: CalEvent, field: string, value: string, parseDate: string -> Option<int>): (r: Edit)
    ensures r.Edited? ==> r.event.id == e.id
    ensures r.Edited? && e.start.Timed? && e.end.Timed? ==>
      r.event.start.Timed? && r.event.end.Timed? && r.event.end.at - r.event.start.at == e.end.at - e.start.at
    ensures field == "name" || field == "summary" ==> r == Edited(e.(summary := value))
    ensures field == "location" ==> r == Edited(e.(location := Some(value)))
    ensures field == "details" || field == "description" ==> r == Edited(e.(description := Some(value)))
    ensures field == "reminder" ==> r == Edited(e.(reminder := Some(FieldReminderMinutes(value))))
    ensures field == "date" ==> r == DateEdit(e, value, parseDate)
    ensures field == "time" ==> r == TimeEdit(e, value)
    ensures field !in {"name", "summary", "location", "details", "description", "date", "time", "reminder"} ==> r == Edited(e)
  {
    if field == "name" || field == "summary" then Edited(e.(summary := value))
    else if field == "location" then Edited(e.(location := Some(value)))
    else if field == "details" || field == "description" then Edited(e.(description := Some(value)))
    else if field == "date" then DateEdit(e, value, parseDate)
    else if field == "time" then TimeEdit(e, value)
    else if field == "reminder" then Edited(e.(reminder := Some(FieldReminderMinutes(value))))
    else Edited(e)
  }

  /** `update_event_field`: the new calendar and reply; an unknown field still reports success. */
  function UpdateField(events: seq<CalEvent>, online: bool, parseDate: string -> Option<int>,
                       id: string, field: string, value: string): (r: (seq<CalEvent>, Reply))
    ensures r.1.ok <==> (online && IndexOfId(events, id).Some?
      && EditedField(events[IndexOfId(events, id).value], field, value, parseDate).Edited?)
    ensures !r.1.ok ==> r.0 == events
    ensures r.1.ok ==> var i := IndexOfId(events, id).value;
      var edit := EditedField(events[i], field, value, parseDate);
      edit.Edited? && r.0 == events[i := edit.event]
    ensures !online || IndexOfId(events, id).None? ==> r.1 == Reply(false, UpdateError)
    ensures online && IndexOfId(events, id).Some? ==>
      var edit := EditedField(events[IndexOfId(events, id).value], field, value, parseDate);
      edit.NotEdited? ==> r.1 == Reply(false, edit.message)
  {
    if !online || IndexOfId(events, id).None? then (events, Reply(false, UpdateError))
    else
      var i := IndexOfId(events, id).value;
      match EditedField(events[i], field, value, parseDate)
      case NotEdited(message) => (events, Reply(false, message))
      case Edited(e) => (events[i := e], Reply(true, "Successfully updated the " + field + " of the event."))
  }

  /** An unrecognised field name changes nothing but is still reported as updated. */
  lemma UnknownFieldIsANoOp(events: seq<CalEvent>, parseDate: string -> Option<int>, id: string, field: string, value: string)
    requires IndexOfId(events, id).Some?
    requires field !in {"name", "summary", "location", "details", "description", "date", "time", "reminder"}
    ensures UpdateField(events, true, parseDate, id, field, value)
         == (events, Reply(true, "Successfully updated the " + field + " of the event."))
  {
    var i := IndexOfId(events, id).value;
    assert events[i := events[i]] == events;
  }

  /** `cancel_event`: the calendar without the fetched event. */
  function Cancel(events: seq<CalEvent>, online: bool, id: string): (r: (seq<CalEvent>, Reply))
    ensures r.1.ok <==> online && IndexOfId(events, id).Some?
    ensures r.1.ok ==> |r.0| == |events| - 1 && multiset(r.0) == multiset(events) - multiset{events[IndexOfId(events, id).value]}
    ensures !r.1.ok ==> r.0 == events
  {
    if !online || IndexOfId(events, id).None? then (events, Reply(false, CancelError))
    else
      var i := IndexOfId(events, id).value;
      assert events == events[..i] + [events[i]] + events[i + 1..];
      (events[..i] + events[i + 1..], Reply(true, "Successfully canceled '" + events[i].summary + "'."))
  }

  // ---------------------------------------------------------------------------
  // Inserting

  /** The date `insert_event` settles on, as text. */
  function InsertDate(date: Option<string>, time: Option<string>, now: int, parseDate: string -> Option<int>): string {
    if date.None? || date.value == [] || time.None? || time.value == [] then Clock.IsoDate(Clock.DayOf(now))
    else if IsoPrefix(date.value) then date.value
    else match parseDate(date.value)
      case Some(d) => Clock.IsoDate(d)
      case None => Clock.IsoDate(Clock.DayOf(now) + 1)
  }

  /** The `HH:MM` time `insert_event` settles on. */
  function InsertTime(date: Option<string>, time: Option<string>): (r: string)
    ensures |r| == 5 && r[2] == ':'
    ensures date.None? || date.value == [] || time.None? || time.value == [] ==> r == "12:00"
    ensures date.Some? && date.value != [] && time.Some? && time.value != [] ==> r == NormaliseTime(time.value)
  {
    if date.None? || date.value == [] || time.None? || time.value == [] then "12:00" else NormaliseTime(time.value)
  }

  /** `strptime(f"{date}T{time}:00", "%Y-%m-%dT%H:%M:%S")`, and the current instant when that fails. */
  function InsertStart(date: Option<string>, time: Option<string>, now: int, parseDate: string -> Option<int>): int {
    match Clock.ParseDateTime(InsertDate(date, time, now, parseDate) + "T" + InsertTime(date, time) + ":00", 'T')
    case Some(t) => t
    case None => now
  }

  /** The event `insert_event` sends from its parsed start: one hour long, with a popup reminder. */
  function NewEvent(id: string, name: string, start: int, location: Option<string>, details: Option<string>,
                    reminder: Option<string>): (e: CalEvent)
    ensures e.start == Timed(start) && e.end == Timed(start + OneHour)
    ensures e.reminder == Some(InsertReminderMinutes(reminder))
    ensures reminder.None? || MinutesIn(reminder.value).None? ==> e.reminder == Some(10)
    ensures e.id == id && e.summary == name && e.location == location && e.description == details
  {
    CalEvent(id, name, location, details, Timed(start), Timed(start + OneHour), Some(InsertReminderMinutes(reminder)))
  }

  // ---------------------------------------------------------------------------
  // Free slots

  /** One hourly slot as `find_free_slots` describes it. */
  datatype Slot = Slot(startTime: string, endTime: string, durationHours: nat, startHour: nat, endHour: nat)

  /** The label `find_free_slots` gives a whole hour: `"8:00 AM"`, `"12:00 PM"`, `"1:00 PM"`. */
  function HourLabel(h: nat): string {
    var disp := if h <= 12 then h else h - 12;
    NatToString(disp) + ":00 " + (if h < 12 then "AM" else "PM")
  }

  /** The slot from hour `h` to hour `h + 1`, with its labels. */
  function SlotAt(h: nat): (s: Slot)
    ensures s.startHour == h && s.endHour == h + 1 && s.durationHours == 1
  {
    Slot(HourLabel(h), HourLabel(h + 1), 1, h, h + 1)
  }

  /** A timed event overlapping the half-open slot `[lo, hi)`; whole-day events are skipped. */
  predicate Blocks(e: CalEvent, lo: int, hi: int) {
    e.start.Timed? && e.end.Timed? && e.start.at < hi && e.end.at > lo
  }

  predicate SlotFree(s: Slot, existing: seq<CalEvent>, day: int) {
    forall e :: e in existing ==> !Blocks(e, Clock.Midnight(day) + s.startHour * OneHour, Clock.Midnight(day) + s.endHour * OneHour)
  }

  /** The free slots among `slots`, in order. */
  function FreeAmong(slots: seq<Slot>, existing: seq<CalEvent>, day: int): (r: seq<Slot>)
    ensures forall s :: s in r <==> s in slots && SlotFree(s, existing, day)
    ensures |r| <= |slots|
  {
    if slots == [] then []
    else
      var last := slots[|slots| - 1];
      FreeAmong(slots[..|slots| - 1], existing, day) + (if SlotFree(last, existing, day) then [last] else [])
  }

  /** The eleven slots 8:00-9:00 through 18:00-19:00. */
  function DaySlots(): (r: seq<Slot>)
    ensures |r| == 11 && forall k :: 0 <= k < 11 ==> r[k] == SlotAt(8 + k)
  {
    seq(11, k requires 0 <= k < 11 => SlotAt(8 + k))
  }

  /** Python's `s[:k]`, negative `k` counting from the end. */
  function PyPrefix<T>(s: seq<T>, k: int): (r: seq<T>)
    ensures k >= 0 ==> r == s[..if k < |s| then k else |s|]
    ensures k < 0 ==> r == s[..if |s| + k > 0 then |s| + k else 0]
  {
    if k >= 0 then s[..if k < |s| then k else |s|]
    else s[..if |s| + k > 0 then |s| + k else 0]
  }

  /** What `find_free_slots` returns, for the events the service listed between 8:00 and 20:00. */
  function FreeSlots(existing: seq<CalEvent>, day: int, numSlots: int): seq<Slot> {
    PyPrefix(FreeAmong(DaySlots(), existing, day), numSlots)
  }

  /** Slots in strictly ascending order of their start hour. */
  predicate Ascending(slots: seq<Slot>) {
    forall a, b :: 0 <= a < b < |slots| ==> slots[a].startHour < slots[b].startHour
  }

  lemma {:induction false} FreeAmongOrdered(slots: seq<Slot>, existing: seq<CalEvent>, day: int)
    requires Ascending(slots)
    ensures Ascending(FreeAmong(slots, existing, day))
  {
    if slots != [] {
      var init := slots[..|slots| - 1];
      FreeAmongOrdered(init, existing, day);
      var r0 := FreeAmong(init, existing, day);
      var last := slots[|slots| - 1];
      if SlotFree(last, existing, day) {
        var r := r0 + [last];
        forall a, b | 0 <= a < b < |r| ensures r[a].startHour < r[b].startHour {
          if b == |r0| {
            assert r0[a] in r0;
            assert r0[a] in init;
            var k :| 0 <= k < |init| && init[k] == r0[a];
          }
        }
        assert FreeAmong(slots, existing, day) == r;
      }
    }
  }

  lemma PrefixKeeps(s: seq<Slot>, k: int)
    requires Ascending(s)
    ensures Ascending(PyPrefix(s, k))
    ensures forall x :: x in PyPrefix(s, k) ==> x in s
  {
  }

  lemma DaySlotsAreHourly(s: Slot)
    requires s in DaySlots()
    ensures 8 <= s.startHour <= 18 && s == SlotAt(s.startHour)
  {
    var k :| 0 <= k < 11 && DaySlots()[k] == s;
  }

  /**
   * The slots on offer are hourly slots between 8:00 and 19:00 that no timed event overlaps,
   * in ascending order.
   */
  lemma FreeSlotsSound(existing: seq<CalEvent>, day: int, numSlots: int)
    ensures Ascending(FreeSlots(existing, day, numSlots))
    ensures forall s :: s in FreeSlots(existing, day, numSlots) ==>
      8 <= s.startHour <= 18 && s == SlotAt(s.startHour) && SlotFree(s, existing, day)
  {
    var all := FreeAmong(DaySlots(), existing, day);
    assert Ascending(DaySlots());
    FreeAmongOrdered(DaySlots(), existing, day);
    PrefixKeeps(all, numSlots);
    forall s | s in FreeSlots(existing, day, numSlots)
      ensures 8 <= s.startHour <= 18 && s == SlotAt(s.startHour) && SlotFree(s, existing, day)
    {
      DaySlotsAreHourly(s);
    }
  }

  /** Asked for at least eleven slots, every free hour of the day is on offer. */
  lemma FreeSlotsComplete(existing: seq<CalEvent>, day: int, numSlots: int, h: nat)
    requires numSlots >= 11 && 8 <= h <= 18 && SlotFree(SlotAt(h), existing, day)
    ensures SlotAt(h) in FreeSlots(existing, day, numSlots)
  {
    assert DaySlots()[h - 8] == SlotAt(h);
    assert FreeSlots(existing, day, numSlots) == FreeAmong(DaySlots(), existing, day);
  }

  /**
   * However many slots are asked for, the ones returned are the earliest free ones: a free hourly
   * slot before a returned slot is returned too.
   */
  lemma FreeSlotsEarlierFree(existing: seq<CalEvent>, day: int, numSlots: int, h: nat, s: Slot)
    requires 8 <= h <= 18 && SlotFree(SlotAt(h), existing, day)
    requires s in FreeSlots(existing, day, numSlots) && h < s.startHour
    ensures SlotAt(h) in FreeSlots(existing, day, numSlots)
  {
    var all := FreeAmong(DaySlots(), existing, day);
    assert Ascending(DaySlots());
    FreeAmongOrdered(DaySlots(), existing, day);
    assert DaySlots()[h - 8] == SlotAt(h);
    var shown := FreeSlots(existing, day, numSlots);
    assert shown == all[..|shown|];
    EarlierInPrefix(all, |shown|, SlotAt(h), s);
  }

  /** In an ascending sequence, a prefix holding a slot holds every slot that starts before it. */
  lemma EarlierInPrefix(all: seq<Slot>, m: nat, x: Slot, s: Slot)
    requires Ascending(all) && m <= |all|
    requires x in all && s in all[..m] && x.startHour < s.startHour
    ensures x in all[..m]
  {
    var a :| 0 <= a < |all| && all[a] == x;
    var b :| 0 <= b < m && all[..m][b] == s;
    assert all[b] == s;
    assert a < b;
    assert all[..m][a] == x;
  }

  /** An event ending exactly when a slot starts, or starting exactly when it ends, does not block it. */
  lemma TouchingEventsDoNotBlock(e: CalEvent, day: int, h: nat)
    requires e.start.Timed? && e.end.Timed?
    requires e.end.at == Clock.Midnight(day) + h * OneHour || e.start.at == Clock.Midnight(day) + (h + 1) * OneHour
    requires e.start.at <= e.end.at
    ensures !Blocks(e, Clock.Midnight(day) + h * OneHour, Clock.Midnight(day) + (h + 1) * OneHour)
  {
  }

  // ---------------------------------------------------------------------------
  // Day listing text

  /** One line of `get_events`. */
  function EventLine(e: CalEvent): string {
    e.summary + " on " + Clock.DayMonth(InstantOf(e.start)) + " from " + Clock.ClockFace(InstantOf(e.start))
    + " to " + Clock.ClockFace(InstantOf(e.end))
  }

  const NoEventsReply: string := "You have no events scheduled for this date."
  const EventsPrefix: string := "Here are your events for this date: "
  const FetchFailedReply: string := "Sorry, I couldn't fetch your events. Please try again later."

  /** `f` applied to each element of `s`, in order. */
  function Each<T>(f: T -> string, s: seq<T>): (r: seq<string>)
    ensures |r| == |s|
  {
    if s == [] then [] else Each(f, s[..|s| - 1]) + [f(s[|s| - 1])]
  }

  lemma {:induction false} EachAt<T>(f: T -> string, s: seq<T>, i: nat)
    requires i < |s|
    ensures Each(f, s)[i] == f(s[i])
    decreases |s|
  {
    var init := s[..|s| - 1];
    if i < |init| {
      EachAt(f, init, i);
      assert s[i] == init[i];
    }
  }

  lemma EachSnoc<T>(f: T -> string, s: seq<T>, k: nat)
    requires k < |s|
    ensures Each(f, s[..k + 1]) == Each(f, s[..k]) + [f(s[k])]
  {
    assert s[..k + 1][..k] == s[..k];
  }

  /** The lines of `es`, one per event, in order. */
  function Lines(es: seq<CalEvent>): (r: seq<string>)
    ensures |r| == |es|
  {
    Each(EventLine, es)
  }

  /** The first ten events of day `day`, the page `get_events` asks for. */
  function DayPage(events: seq<CalEvent>, day: int): (r: seq<CalEvent>)
    ensures |r| <= 10
    ensures forall e :: e in r ==> e in events && Overlaps(e, Clock.Midnight(day), Clock.Midnight(day + 1))
    ensures var l := Listing(events, Clock.Midnight(day), Clock.Midnight(day + 1));
      r == l[..if |l| <= 10 then |l| else 10]
    ensures |Listing(events, Clock.Midnight(day), Clock.Midnight(day + 1))| <= 10 ==>
      forall e :: e in events && Overlaps(e, Clock.Midnight(day), Clock.Midnight(day + 1)) ==> e in r
  {
    var l := Listing(events, Clock.Midnight(day), Clock.Midnight(day + 1));
    if |l| <= 10 then l else l[..10]
  }

  /** The text of `get_events` for day `day`. */
  function EventsText(page: seq<CalEvent>): string {
    if page == [] then NoEventsReply else EventsPrefix + Join("; ", Lines(page))
  }

  /** With events on the day the reply lists them after the prefix; without, it is the no-events reply. */
  lemma EventsTextCases(page: seq<CalEvent>)
    ensures EventsText(page) == NoEventsReply <==> page == []
    ensures page != [] ==> EventsText(page) == EventsPrefix + Join("; ", Lines(page))
    ensures page != [] ==> |Lines(page)| == |page| && forall i :: 0 <= i < |page| ==> Lines(page)[i] == EventLine(page[i])
  {
    if page != [] {
      assert EventsText(page)[0] == EventsPrefix[0];
      assert NoEventsReply[0] == 'Y';
      forall i | 0 <= i < |page| ensures Lines(page)[i] == EventLine(page[i]) {
        EachAt(EventLine, page, i);
      }
    }
  }

  /** The `event_list` loop of `get_events`: one formatted line per event, in order. */
  method FormatEvents(page: seq<CalEvent>) returns (eventList: seq<string>)
    ensures eventList == Lines(page)
  {
    eventList := [];
    for k := 0 to |page|
      invariant eventList == Lines(page[..k])
    {
      EachSnoc(EventLine, page, k);
      eventList := eventList + [EventLine(page[k])];
    }
    assert page[..|page|] == page;
  }

  /** The `all_possible_slots` loop of `find_free_slots`: one slot per hour from 8 to 18. */
  method HourlySlots() returns (allPossibleSlots: seq<Slot>)
    ensures allPossibleSlots == DaySlots()
  {
    allPossibleSlots := [];
    for hour := 8 to 19
      invariant |allPossibleSlots| == hour - 8
      invariant forall k :: 0 <= k < hour - 8 ==> allPossibleSlots[k] == SlotAt(8 + k)
    {
      allPossibleSlots := allPossibleSlots + [SlotAt(hour)];
    }
  }

  /**
   * The conflict loop of `find_free_slots`: a slot is kept unless some timed event overlaps it;
   * the scan of the events stops at the first conflict.
   */
  method KeepFree(allPossibleSlots: seq<Slot>, existing: seq<CalEvent>, day: int) returns (availableSlots: seq<Slot>)
    ensures availableSlots == FreeAmong(allPossibleSlots, existing, day)
  {
    availableSlots := [];
    for i := 0 to |allPossibleSlots|
      invariant availableSlots == FreeAmong(allPossibleSlots[..i], existing, day)
    {
      var slot := allPossibleSlots[i];
      var slotStart := Clock.Midnight(day) + slot.startHour * OneHour;
      var slotEnd := Clock.Midnight(day) + slot.endHour * OneHour;
      var hasConflict := false;
      for j := 0 to |existing|
        invariant !hasConflict
        invariant forall k :: 0 <= k < j ==> !Blocks(existing[k], slotStart, slotEnd)
      {
        var e := existing[j];
        if !(e.start.Timed? && e.end.Timed?) {
          continue;
        }
        if e.start.at < slotEnd && e.end.at > slotStart {
          hasConflict := true;
          assert e in existing && Blocks(e, slotStart, slotEnd);
          break;
        }
      }
      assert allPossibleSlots[..i + 1][..i] == allPossibleSlots[..i];
      if !hasConflict {
        assert SlotFree(slot, existing, day);
        availableSlots := availableSlots + [slot];
      } else {
        assert !SlotFree(slot, existing, day);
      }
    }
    assert allPossibleSlots[..|allPossibleSlots|] == allPossibleSlots;
  }

  // ---------------------------------------------------------------------------
  // The handler object

  class GoogleCalendarHandler {
    /** The primary calendar as the service holds it. */
    var events: seq<CalEvent>
    /** Whether the service answers; when it does not, every request raises an HTTP error. */
    var online: bool
    /** The free-form date parser (`dateparser.parse`), as a day number. */
    const parseDate: string -> Option<int>

    constructor (events: seq<CalEvent>, online: bool, parseDate: string -> Option<int>)
      ensures this.events == events && this.online == online && this.parseDate == parseDate
    {
      this.events := events;
      this.online := online;
      this.parseDate := parseDate;
    }

    /** `get_events`: the day's first ten events, one line each. */
    method GetEvents(day: int) returns (reply: string)
      ensures reply == if online then EventsText(DayPage(events, day)) else FetchFailedReply
    {
      if !online {
        return FetchFailedReply;
      }
      var page := DayPage(events, day);
      if page == [] {
        return NoEventsReply;
      }
      var eventList := FormatEvents(page);
      reply := EventsPrefix + Join("; ", eventList);
    }

    /** `insert_event`: the new event is appended to the calendar, or the call raises when the service is down. */
    method InsertEvent(id: string, name: string, date: Option<string>, time: Option<string>, location: Option<string>,
                       details: Option<string>, reminder: Option<string>, now: int) returns (created: Option<CalEvent>)
      modifies this
      ensures online ==> created == Some(NewEvent(id, name, InsertStart(date, time, now, parseDate), location, details, reminder))
      ensures online ==> events == old(events) + [created.value]
      ensures !online ==> created.None? && events == old(events)
    {
      if !online {
        return None;
      }
      var e := NewEvent(id, name, InsertStart(date, time, now, parseDate), location, details, reminder);
      events := events + [e];
      created := Some(e);
    }

    /** `check_for_conflicts`. */
    function CheckForConflicts(date: string, time: string): (r: ConflictCheck)
      reads this
      ensures DateArg(date, parseDate).None? ==> r == CheckFailed("Could not parse the date format")
      ensures DateArg(date, parseDate).Some? && ScanTime(Lower(time)).None? ==> r == CheckFailed("Could not parse the time format")
      ensures r.Found? ==> r.conflicts != [] && forall e :: e in r.conflicts ==> e in events
    {
      match DateArg(date, parseDate)
      case None => CheckFailed("Could not parse the date format")
      case Some(day) =>
        match ScanTime(Lower(time))
        case None => CheckFailed("Could not parse the time format")
        case Some(c) =>
          var requested := HourMinuteText(To24Hour(c), c.minute);
          match Clock.ParseHourMinute(requested)
          case None =>
            CheckFailed("Error checking calendar: time data '" + requested + "' does not match format '%H:%M:%S'")
          case Some(secs) =>
            if !online then CheckFailed("Error checking calendar: ")
            else
              var found := ConflictWindow(events, Clock.Midnight(day) + secs);
              if found == [] then Clear else Found(found)
    }

    /**
     * For a parsable date and time the reply lists exactly the events overlapping the window
     * from one hour before to two hours after the requested instant.
     */
    lemma ConflictsAreTheWindow(date: string, time: string, day: int, c: ClockReading)
      requires DateArg(date, parseDate) == Some(day) && ScanTime(Lower(time)) == Some(c)
      requires To24Hour(c) <= 23 && c.minute <= 59 && online
      ensures var t := Clock.Midnight(day) + To24Hour(c) * 3600 + c.minute * 60;
        match CheckForConflicts(date, time)
        case Found(es) => es != [] && forall e :: e in es <==> e in events && InstantOf(e.end) > t - OneHour && InstantOf(e.start) < t + 2 * OneHour
        case Clear => forall e :: e in events ==> !(InstantOf(e.end) > t - OneHour && InstantOf(e.start) < t + 2 * OneHour)
        case CheckFailed(_) => false
    {
      NormalisedTimeParses(c);
      var t := Clock.Midnight(day) + To24Hour(c) * 3600 + c.minute * 60;
      if ConflictWindow(events, t) == [] {
        forall e | e in events
          ensures !(InstantOf(e.end) > t - OneHour && InstantOf(e.start) < t + 2 * OneHour)
        {
          assert e !in ConflictWindow(events, t);
        }
      }
    }

    /** `reschedule_event`. */
    method RescheduleEvent(id: string, newDate: string, newTime: string) returns (reply: Reply)
      modifies this
      ensures (events, reply) == Reschedule(old(events), online, parseDate, id, newDate, newTime)
      ensures online == old(online)
    {
      var (after, r) := Reschedule(events, online, parseDate, id, newDate, newTime);
      events := after;
      reply := r;
    }

    /** `update_event_field`. */
    method UpdateEventField(id: string, field: string, value: string) returns (reply: Reply)
      modifies this
      ensures (events, reply) == UpdateField(old(events), online, parseDate, id, field, value)
      ensures online == old(online)
    {
      var (after, r) := UpdateField(events, online, parseDate, id, field, value);
      events := after;
      reply := r;
    }

    /** `cancel_event`. */
    method CancelEvent(id: string) returns (reply: Reply)
      modifies this
      ensures (events, reply) == Cancel(old(events), online, id)
      ensures online == old(online)
    {
      var (after, r) := Cancel(events, online, id);
      events := after;
      reply := r;
    }

    /**
     * `find_free_slots`: the hourly slots from 8:00 to 19:00 that no timed event of the day
     * overlaps, at most `numSlots` of them. When the listing fails the day counts as empty;
     * when the date does not parse there are no slots.
     */
    method FindFreeSlots(date: string, numSlots: int) returns (slots: seq<Slot>)
      ensures DateArg(date, parseDate).None? ==> slots == []
      ensures DateArg(date, parseDate).Some? ==>
        var day := DateArg(date, parseDate).value;
        var existing := if online then Listing(events, Clock.Midnight(day) + 8 * OneHour, Clock.Midnight(day) + 20 * OneHour) else [];
        slots == FreeSlots(existing, day, numSlots)
    {
      var target := DateArg(date, parseDate);
      if target.None? {
        return [];
      }
      var day := target.value;
      var dayStart := Clock.Midnight(day) + 8 * OneHour;
      var dayEnd := Clock.Midnight(day) + 20 * OneHour;
      var existing: seq<CalEvent> := [];
      if online {
        existing := Listing(events, dayStart, dayEnd);
      }

      var allPossibleSlots := HourlySlots();
      var availableSlots := KeepFree(allPossibleSlots, existing, day);
      slots := PyPrefix(availableSlots, numSlots);
    }
  }
}
