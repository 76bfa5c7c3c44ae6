/**
 * `WeatherHandler`: the weather intent test, the date and location a query asks about, the
 * forecast range check and the choice of one three-hourly forecast entry for the target day.
 *
 * OpenWeatherMap is an oracle from a location to a feed (the parsed JSON, or the HTTP status
 * or failure the request ended with), `datetime.now()` is the parameter `now` (local seconds
 * since 0001-01-01), `dateparser.parse` is an oracle to an instant, and the capture groups of
 * the location and date regular expressions are inputs.
 */
module Weather {
  import opened Wrappers
  import opened Text
  import Clock

  const DefaultLocation: string := "Edinburgh"

  // ---------------------------------------------------------------------------
  // Intent

  const WeatherKeywords: seq<string> := [
    "weather", "temperature", "forecast", "rain", "sunny", "cloudy",
    "snow", "hot", "cold", "humid", "precipitation", "storm",
    "thunderstorm", "climate", "degrees", "celsius", "fahrenheit"]

  const WeatherPhrases: seq<string> := [
    "how's the weather", "how is the weather", "what's the weather",
    "what is the weather", "weather like"]

  /** `is_weather_query`: a keyword or a phrase occurs in the lower-cased input. */
  predicate IsWeatherQuery(input: string) {
    ContainsAny(Lower(input), WeatherKeywords) || ContainsAny(Lower(input), WeatherPhrases)
  }

  lemma PhrasesMentionWeather()
    ensures forall j :: 0 <= j < |WeatherPhrases| ==> Contains(WeatherPhrases[j], "weather")
  {
    EndsWithWeather("how's the ");
    EndsWithWeather("how is the ");
    EndsWithWeather("what's the ");
    EndsWithWeather("what is the ");
    assert WeatherPhrases[0] == "how's the " + "weather";
    assert WeatherPhrases[1] == "how is the " + "weather";
    assert WeatherPhrases[2] == "what's the " + "weather";
    assert WeatherPhrases[3] == "what is the " + "weather";
    ContainsAt("weather like", "weather", 0);
  }

  lemma EndsWithWeather(prefix: string)
    ensures Contains(prefix + "weather", "weather")
  {
    ContainsItself("weather");
    ContainsInSuffix(prefix, "weather", "weather");
  }

  /** Every phrase contains "weather", so the phrase test adds nothing to the keyword test. */
  lemma PhrasesAreRedundant(input: string)
    ensures IsWeatherQuery(input) <==> ContainsAny(Lower(input), WeatherKeywords)
  {
    var l := Lower(input);
    if ContainsAny(l, WeatherPhrases) {
      var j :| 0 <= j < |WeatherPhrases| && Contains(l, WeatherPhrases[j]);
      PhrasesMentionWeather();
      ContainsTransitive(l, WeatherPhrases[j], "weather");
      assert Contains(l, WeatherKeywords[0]);
    }
  }

  const ForecastWords: seq<string> := ["forecast", "tomorrow", "weekend", "next", "upcoming"]

  /** The `is_forecast` test of `process_weather_query`. */
  predicate IsForecast(input: string) {
    ContainsAny(Lower(input), ForecastWords)
  }

  // ---------------------------------------------------------------------------
  // The date a query names

  /** Days from a day with weekday `w` to the next Saturday, a whole week when it is Saturday. */
  function WeekendOffset(w: int): (r: int)
    requires 0 <= w < 7
    ensures 1 <= r <= 7
    ensures (w + r) % 7 == 5
  {
    var d := (5 - w) % 7;
    if d == 0 then 7 else d
  }

  /** The weekend date always lands on a Saturday, one to seven days ahead. */
  lemma WeekendIsNextSaturday(today: int)
    ensures 1 <= WeekendOffset(Clock.Weekday(today)) <= 7
    ensures Clock.Weekday(today + WeekendOffset(Clock.Weekday(today))) == 5
  {
    var w := Clock.Weekday(today);
    var r := WeekendOffset(w);
    assert today == (today / 7) * 7 + w;
    assert today + r == (today / 7) * 7 + (w + r);
    assert (w + r) % 7 == 5;
  }

  /**
   * `extract_date_from_query` as written: "tomorrow" is tested before "day after tomorrow",
   * then a `(on|for|this|next) <date>` phrase given by `datePhrase` is handed to the date
   * parser, then "weekend".
   */
  function ExtractDateAsWritten(input: string, datePhrase: Option<string>, now: int,
                                parseWhen: string -> Option<int>): Option<string> {
    var l := Lower(input);
    var today := Clock.DayOf(now);
    if Contains(l, "tomorrow") then Some(Clock.IsoDate(today + 1))
    else if Contains(l, "today") then Some(Clock.IsoDate(today))
    else if Contains(l, "day after tomorrow") || Contains(l, "in 2 days") then Some(Clock.IsoDate(today + 2))
    else PhraseOrWeekend(l, datePhrase, today, parseWhen)
  }

  /** The date-phrase and weekend rules, shared by both orders of the relative-day tests. */
  function PhraseOrWeekend(l: string, datePhrase: Option<string>, today: int,
                           parseWhen: string -> Option<int>): Option<string> {
    var parsed := if datePhrase.Some? then parseWhen(datePhrase.value) else None;
    if parsed.Some? then Some(Clock.IsoDate(Clock.DayOf(parsed.value)))
    else if Contains(l, "weekend") then Some(Clock.IsoDate(today + WeekendOffset(Clock.Weekday(today))))
    else None
  }

  lemma DayAfterTomorrowMentionsTomorrow(l: string)
    requires Contains(l, "day after tomorrow")
    ensures Contains(l, "tomorrow")
  {
    ContainsAt("day after tomorrow", "tomorrow", 10);
    ContainsTransitive(l, "day after tomorrow", "tomorrow");
  }

  /** As written, "day after tomorrow" is answered with tomorrow's date: the third branch is dead for it. */
  lemma DayAfterTomorrowGivesTomorrow(input: string, datePhrase: Option<string>, now: int,
                                      parseWhen: string -> Option<int>)
    requires Contains(Lower(input), "day after tomorrow")
    ensures ExtractDateAsWritten(input, datePhrase, now, parseWhen) == Some(Clock.IsoDate(Clock.DayOf(now) + 1))
  {
    DayAfterTomorrowMentionsTomorrow(Lower(input));
  }

  /** `extract_date_from_query` with the day-after-tomorrow test moved ahead of "tomorrow". */
  function ExtractDate(input: string, datePhrase: Option<string>, now: int,
                       parseWhen: string -> Option<int>): (r: Option<string>)
    ensures Contains(Lower(input), "day after tomorrow") ==> r == Some(Clock.IsoDate(Clock.DayOf(now) + 2))
    ensures !Contains(Lower(input), "day after tomorrow") ==> r == ExtractDateAsWritten(input, datePhrase, now, parseWhen)
  {
    if Contains(Lower(input), "day after tomorrow") then Some(Clock.IsoDate(Clock.DayOf(now) + 2))
    else ExtractDateAsWritten(input, datePhrase, now, parseWhen)
  }

  /** A weekend query with no date phrase names the next Saturday. */
  lemma WeekendQueryNamesSaturday(input: string, now: int, parseWhen: string -> Option<int>)
    requires Contains(Lower(input), "weekend")
    requires !Contains(Lower(input), "tomorrow") && !Contains(Lower(input), "today") && !Contains(Lower(input), "in 2 days")
    ensures ExtractDate(input, None, now, parseWhen)
         == Some(Clock.IsoDate(Clock.DayOf(now) + WeekendOffset(Clock.Weekday(Clock.DayOf(now)))))
  {
    var l := Lower(input);
    var today := Clock.DayOf(now);
    if Contains(l, "day after tomorrow") {
      DayAfterTomorrowMentionsTomorrow(l);
    }
    assert ExtractDate(input, None, now, parseWhen) == ExtractDateAsWritten(input, None, now, parseWhen);
    assert ExtractDateAsWritten(input, None, now, parseWhen) == PhraseOrWeekend(l, None, today, parseWhen);
  }

  // ---------------------------------------------------------------------------
  // Location

  const FillerWords: seq<string> := [
    "today", "tomorrow", "tonight", "morning", "afternoon", "evening",
    "weekend", "week", "month", "year", "current", "now", "later", "soon",
    "monday", "tuesday", "wednesday", "thursday", "friday", "saturday", "sunday",
    "like", "going", "to", "be", "the", "will", "is", "are", "was", "were", "am"]

  /** The characters `[^\w\s,]` does not match. */
  predicate Kept(c: char) { IsWordChar(c) || IsSpace(c) || c == ',' }

  /** `re.sub(r'[^\w\s,]', '', s)`. */
  function KeepWordChars(s: string): (r: string)
    ensures forall j :: 0 <= j < |r| ==> Kept(r[j])
    ensures |r| <= |s|
    ensures (forall j :: 0 <= j < |s| ==> Kept(s[j])) ==> r == s
  {
    if s == [] then []
    else (if Kept(s[0]) then [s[0]] else []) + KeepWordChars(s[1..])
  }

  /** One character is kept exactly when it is allowed. */
  lemma KeepWordCharsOne(c: char)
    ensures KeepWordChars([c]) == if Kept(c) then [c] else []
  {
    assert [c][1..] == [];
  }

  /** The removal works character by character: it distributes over concatenation. */
  lemma {:induction false} KeepWordCharsAppend(s: string, t: string)
    ensures KeepWordChars(s + t) == KeepWordChars(s) + KeepWordChars(t)
    decreases |s|
  {
    if s != [] {
      assert (s + t)[0] == s[0];
      assert (s + t)[1..] == s[1..] + t;
      KeepWordCharsAppend(s[1..], t);
    } else {
      assert s + t == t;
    }
  }

  /** `[w for w in words if w not in filter_words]`. */
  function Unfilled(words: seq<string>): (r: seq<string>)
    ensures forall w :: w in r <==> w in words && w !in FillerWords
    ensures |r| <= |words|
  {
    if words == [] then []
    else (if words[0] in FillerWords then [] else [words[0]]) + Unfilled(words[1..])
  }

  lemma {:induction false} JoinStartsWithFirst(sep: string, parts: seq<string>)
    requires parts != []
    ensures |Join(sep, parts)| >= |parts[0]|
  {
    if |parts| > 1 {
      assert Join(sep, parts) == parts[0] + sep + Join(sep, parts[1..]);
    }
  }

  /** The location one pattern's capture yields: its words other than fillers, or nothing. */
  function LocationCandidate(group: string): (r: Option<string>)
    ensures r.Some? <==> Unfilled(Words(Lower(Strip(KeepWordChars(Strip(group)))))) != []
    ensures r.Some? ==> r.value != []
  {
    var ws := Unfilled(Words(Lower(Strip(KeepWordChars(Strip(group))))));
    if ws == [] then None
    else
      JoinStartsWithFirst(" ", ws);
      assert ws[0] in ws;
      Some(Join(" ", ws))
  }

  /** The location is the capture's remaining words joined by spaces: splitting it gives them back. */
  lemma LocationCandidateWords(group: string)
    requires LocationCandidate(group).Some?
    ensures Words(LocationCandidate(group).value) == Unfilled(Words(Lower(Strip(KeepWordChars(Strip(group))))))
  {
    var all := Words(Lower(Strip(KeepWordChars(Strip(group)))));
    var ws := Unfilled(all);
    forall k | 0 <= k < |ws| ensures IsWord(ws[k]) {
      assert ws[k] in ws;
      var m :| 0 <= m < |all| && all[m] == ws[k];
    }
    WordsOfJoin(ws);
  }

  /** The location the patterns from index `i` on give. */
  function LocationFrom(groups: seq<Option<string>>, i: nat): (r: string)
    decreases |groups| - i
  {
    if i >= |groups| then DefaultLocation
    else if groups[i].Some? && LocationCandidate(groups[i].value).Some? then LocationCandidate(groups[i].value).value
    else LocationFrom(groups, i + 1)
  }

  /**
   * The location is the candidate of the first pattern, in declared order, that matched and
   * kept a word; with none, the default.
   */
  lemma {:induction false} LocationIsFirstCandidate(groups: seq<Option<string>>, i: nat)
    ensures var r := LocationFrom(groups, i);
      r == DefaultLocation
      || exists k :: i <= k < |groups| && groups[k].Some? && LocationCandidate(groups[k].value) == Some(r)
    ensures (forall k :: i <= k < |groups| ==> groups[k].None? || LocationCandidate(groups[k].value).None?)
      ==> LocationFrom(groups, i) == DefaultLocation
    ensures LocationFrom(groups, i) != []
    decreases |groups| - i
  {
    if i < |groups| && !(groups[i].Some? && LocationCandidate(groups[i].value).Some?) {
      LocationIsFirstCandidate(groups, i + 1);
    }
  }

  /** A capture that matched and kept a word. */
  predicate Usable(g: Option<string>) {
    g.Some? && LocationCandidate(g.value).Some?
  }

  /** The value of the first `Some` among `f(xs[i])`, `f(xs[i + 1])`, ..., or `d` when there is none. */
  function FirstFrom<T>(f: T -> Option<string>, xs: seq<T>, i: nat, d: string): string
    decreases |xs| - i
  {
    if i >= |xs| then d
    else if f(xs[i]).Some? then f(xs[i]).value
    else FirstFrom(f, xs, i + 1, d)
  }

  lemma {:induction false} FirstFromAt<T>(f: T -> Option<string>, xs: seq<T>, i: nat, k: nat, d: string)
    requires i <= k < |xs| && f(xs[k]).Some?
    requires forall j :: i <= j < k ==> f(xs[j]).None?
    ensures FirstFrom(f, xs, i, d) == f(xs[k]).value
    decreases k - i
  {
    if i < k {
      FirstFromAt(f, xs, i + 1, k, d);
    }
  }

  /** The candidate a pattern's capture gives, nothing when the pattern did not match. */
  function CandidateOf(g: Option<string>): Option<string> {
    if g.Some? then LocationCandidate(g.value) else None
  }

  lemma {:induction false} LocationFromIsFirstFrom(groups: seq<Option<string>>, i: nat)
    ensures LocationFrom(groups, i) == FirstFrom(CandidateOf, groups, i, DefaultLocation)
    decreases |groups| - i
  {
    if i < |groups| {
      LocationFromIsFirstFrom(groups, i + 1);
    }
  }

  /** A usable capture at `k` after only unusable ones from `i` is the location given. */
  lemma FirstUsableCandidate(groups: seq<Option<string>>, i: nat, k: nat)
    requires i <= k < |groups| && Usable(groups[k])
    requires forall j :: i <= j < k ==> !Usable(groups[j])
    ensures LocationFrom(groups, i) == LocationCandidate(groups[k].value).value
  {
    LocationFromIsFirstFrom(groups, i);
    FirstFromAt(CandidateOf, groups, i, k, DefaultLocation);
  }

  /**
   * `extract_location_from_query` after the regular expressions: `groups[i]` is group 1 of
   * pattern `i` on the cleaned input, `None` when it did not match.
   */
  method ExtractLocation(groups: seq<Option<string>>) returns (location: string)
    ensures location == LocationFrom(groups, 0)
  {
    var i := 0;
    while i < |groups|
      invariant 0 <= i <= |groups|
      invariant LocationFrom(groups, 0) == LocationFrom(groups, i)
    {
      if groups[i].Some? {
        var candidate := LocationCandidate(groups[i].value);
        if candidate.Some? {
          return candidate.value;
        }
      }
      i := i + 1;
    }
    return DefaultLocation;
  }

  // ---------------------------------------------------------------------------
  // Forecast entries

  /** One three-hourly entry; temperatures arrive already rounded and the wind speed as its text. */
  datatype Entry = Entry(dtText: string, description: string, temperature: int, feelsLike: int, humidity: int, windSpeed: string)

  /** The index of the first space in `s` at or after `i`, or `|s|` when there is none. */
  function SpaceFrom(s: string, i: nat): (r: nat)
    requires i <= |s|
    ensures i <= r <= |s|
    decreases |s| - i
  {
    if i == |s| || s[i] == ' ' then i else SpaceFrom(s, i + 1)
  }

  /** `dt_txt.split(' ')[0]`. */
  function DatePart(dt: string): string { dt[..SpaceFrom(dt, 0)] }

  /** `dt_txt.split(' ')[1]`, or `None` where Python raises `IndexError`. */
  function TimePart(dt: string): Option<string> {
    var k := SpaceFrom(dt, 0);
    if k == |dt| then None
    else
      var rest := dt[k + 1..];
      Some(rest[..SpaceFrom(rest, 0)])
  }

  /** The time part the representative entry is looked for by. */
  const NoonTime: string := "12:00:00"

  predicate IsNoon(e: Entry) {
    TimePart(e.dtText).Some? && Contains(TimePart(e.dtText).value, NoonTime)
  }

  /** The entries of day `date`, in feed order. */
  function DayForecasts(list: seq<Entry>, date: string): (r: seq<Entry>)
    ensures forall e :: e in r <==> e in list && DatePart(e.dtText) == date
    ensures |r| <= |list|
  {
    if list == [] then []
    else
      var init := DayForecasts(list[..|list| - 1], date);
      var last := list[|list| - 1];
      assert list == list[..|list| - 1] + [last];
      if DatePart(last.dtText) == date then init + [last] else init
  }

  /** Where the search for a noon entry stops: at a noon entry, at the end, or at an entry without a time. */
  datatype Scan = Noon(index: nat) | NoNoon | Broken

  function NoonScan(day: seq<Entry>, i: nat): (r: Scan)
    ensures r.Noon? ==> i <= r.index < |day| && IsNoon(day[r.index])
    ensures r.Noon? || r.NoNoon? ==> forall j :: i <= j < |day| && (r.NoNoon? || j < r.index) ==>
      TimePart(day[j].dtText).Some? && !IsNoon(day[j])
    ensures r.Broken? ==> exists j :: i <= j < |day| && TimePart(day[j].dtText).None?
    decreases |day| - i
  {
    if i >= |day| then NoNoon
    else if TimePart(day[i].dtText).None? then Broken
    else if IsNoon(day[i]) then Noon(i)
    else NoonScan(day, i + 1)
  }

  /** The outcome of picking the representative entry. */
  datatype Pick = Picked(entry: Entry) | NoEntries | Unreadable

  /** The entry `get_weather_forecast` reports: the first noon entry of the day, else the middle one. */
  function ForecastPick(list: seq<Entry>, date: string): (r: Pick)
    ensures r.Picked? ==> r.entry in list && DatePart(r.entry.dtText) == date
    ensures r.NoEntries? <==> DayForecasts(list, date) == []
  {
    var day := DayForecasts(list, date);
    if day == [] then NoEntries
    else match NoonScan(day, 0)
      case Noon(i) => Picked(day[i])
      case NoNoon => Picked(day[|day| / 2])
      case Broken => Unreadable
  }

  /** The noon entry wins when there is one; the middle entry stands in only when every entry has a time and none is at noon. */
  lemma ForecastPickRule(list: seq<Entry>, date: string, k: nat)
    requires var day := DayForecasts(list, date);
      k < |day| && IsNoon(day[k]) && forall j :: 0 <= j < k ==> TimePart(day[j].dtText).Some?
    ensures ForecastPick(list, date).Picked? && IsNoon(ForecastPick(list, date).entry)
  {
    NoonScanFindsNoon(DayForecasts(list, date), 0, k);
  }

  /** More precisely, the first noon entry of the day is the one picked. */
  lemma FirstNoonIsPicked(list: seq<Entry>, date: string, k: nat)
    requires var day := DayForecasts(list, date);
      k < |day| && IsNoon(day[k]) && forall j :: 0 <= j < k ==> TimePart(day[j].dtText).Some? && !IsNoon(day[j])
    ensures ForecastPick(list, date) == Picked(DayForecasts(list, date)[k])
  {
    var day := DayForecasts(list, date);
    NoonScanFindsNoon(day, 0, k);
  }

  lemma MiddleEntryRule(list: seq<Entry>, date: string)
    requires var day := DayForecasts(list, date);
      day != [] && forall j :: 0 <= j < |day| ==> TimePart(day[j].dtText).Some? && !IsNoon(day[j])
    ensures ForecastPick(list, date) == Picked(DayForecasts(list, date)[|DayForecasts(list, date)| / 2])
  {
    NoonScanMisses(DayForecasts(list, date), 0);
  }

  /** A scan that has a noon entry at `k` ahead of it, with only readable entries before, stops at a noon entry. */
  lemma {:induction false} NoonScanFindsNoon(day: seq<Entry>, i: nat, k: nat)
    requires i <= k < |day| && IsNoon(day[k])
    requires forall j :: i <= j < k ==> TimePart(day[j].dtText).Some?
    ensures NoonScan(day, i).Noon?
    decreases k - i
  {
    if i < k && !IsNoon(day[i]) {
      assert TimePart(day[i].dtText).Some?;
      assert NoonScan(day, i) == NoonScan(day, i + 1);
      NoonScanFindsNoon(day, i + 1, k);
    }
  }

  /** A scan over readable entries none of which is at noon runs to the end. */
  lemma {:induction false} NoonScanMisses(day: seq<Entry>, i: nat)
    requires i <= |day|
    requires forall j :: i <= j < |day| ==> TimePart(day[j].dtText).Some? && !IsNoon(day[j])
    ensures NoonScan(day, i) == NoNoon
    decreases |day| - i
  {
    if i < |day| {
      assert TimePart(day[i].dtText).Some? && !IsNoon(day[i]);
      NoonScanMisses(day, i + 1);
    }
  }

  /** The day-filter loop and the noon search with its `break`. */
  method SelectForecast(list: seq<Entry>, date: string) returns (pick: Pick)
    ensures pick == ForecastPick(list, date)
  {
    var day: seq<Entry> := [];
    var k := 0;
    while k < |list|
      invariant 0 <= k <= |list|
      invariant day == DayForecasts(list[..k], date)
    {
      assert list[..k + 1][..k] == list[..k];
      if DatePart(list[k].dtText) == date {
        day := day + [list[k]];
      }
      k := k + 1;
    }
    assert list[..k] == list;
    if day == [] {
      return NoEntries;
    }
    var i := 0;
    while i < |day|
      invariant 0 <= i <= |day|
      invariant NoonScan(day, 0) == NoonScan(day, i)
    {
      var time := TimePart(day[i].dtText);
      if time.None? {
        return Unreadable;
      }
      if Contains(time.value, NoonTime) {
        return Picked(day[i]);
      }
      i := i + 1;
    }
    return Picked(day[|day| / 2]);
  }

  // ---------------------------------------------------------------------------
  // The forecast reply

  /** What the forecast endpoint answered: the entry list, an HTTP error status, or another failure. */
  datatype ForecastFeed = Feed(entries: seq<Entry>) | ForecastStatus(code: int) | ForecastFailure

  const BadDateMessage: string := "I couldn't understand the date format. Please try something like 'tomorrow' or 'March 15th'."
  const PastMessage: string := "I can't provide weather forecasts for past dates."
  const ForecastHttpMessage: string := "I'm sorry, I encountered an error while fetching the forecast. Please try again later."
  const ForecastErrorMessage: string := "I'm sorry, I had trouble getting the weather forecast. Please try again later."

  function TooFarMessage(days: int): string {
    "I can only provide weather forecasts up to 5 days in advance. The date you requested is "
      + IntToString(days) + " days from now."
  }

  function NotFoundMessage(location: string): string {
    "I couldn't find weather information for '" + location + "'. Please check the location name and try again."
  }

  function NoDataMessage(formattedDate: string): string {
    "I couldn't find weather forecast data for " + formattedDate + "."
  }

  function Degrees(t: int): string { IntToString(t) + "\U{B0}C" }

  function ForecastText(location: string, formattedDate: string, e: Entry): string {
    "Weather forecast for " + location + " on " + formattedDate + ": " + e.description + ". "
      + "Expected temperature around " + Degrees(e.temperature) + ", feeling like " + Degrees(e.feelsLike) + ". "
      + "Humidity will be around " + IntToString(e.humidity) + "% with wind speeds of " + e.windSpeed + " m/s."
  }

  /** The target instant: tomorrow at this time with no date, midnight of a `%Y-%m-%d` date, else the date parser's answer. */
  function TargetInstant(dateStr: Option<string>, now: int, parseWhen: string -> Option<int>): Option<int> {
    if dateStr.None? || dateStr.value == [] then Some(now + Clock.SecondsPerDay)
    else match Clock.ParseIsoDate(dateStr.value)
      case Some(d) => Some(Clock.Midnight(d))
      case None => parseWhen(dateStr.value)
  }

  /** `(target_date - now).days` as written: whole days of the difference, rounded down. */
  function DaysFromNowAsWritten(target: int, now: int): int {
    (target - now) / Clock.SecondsPerDay
  }

  /**
   * The day count the range check evidently means: a target earlier today counts as day 0
   * instead of -1; any other target keeps the rounded-down difference.
   */
  function DaysAhead(target: int, now: int): int {
    if Clock.DayOf(target) == Clock.DayOf(now) then 0 else DaysFromNowAsWritten(target, now)
  }

  /**
   * As written, a forecast for today is refused as a date in the past at any moment after
   * midnight: midnight today is less than a day before now, and the difference rounds down to -1.
   */
  lemma TodayIsPastAsWritten(now: int)
    requires Clock.SecondOfDay(now) > 0
    ensures DaysFromNowAsWritten(Clock.Midnight(Clock.DayOf(now)), now) == -1
    ensures DaysAhead(Clock.Midnight(Clock.DayOf(now)), now) == 0
  {
    Clock.MidnightPlusTimeOfDay(now);
  }

  /**
   * Midnight `n` days after today, at a moment after midnight, is `n - 1` whole days away;
   * this holds for the as-written count and the corrected one alike once `n` is not 0.
   */
  lemma {:induction false} MidnightDaysAhead(now: int, n: int)
    requires Clock.SecondOfDay(now) > 0
    ensures DaysFromNowAsWritten(Clock.Midnight(Clock.DayOf(now) + n), now) == n - 1
    ensures n != 0 ==> DaysAhead(Clock.Midnight(Clock.DayOf(now) + n), now) == n - 1
  {
    Clock.MidnightPlusTimeOfDay(now);
    var s := Clock.SecondOfDay(now);
    var diff := Clock.Midnight(Clock.DayOf(now) + n) - now;
    assert diff == (n - 1) * Clock.SecondsPerDay + (Clock.SecondsPerDay - s);
    assert diff / Clock.SecondsPerDay == n - 1;
    assert Clock.DayOf(Clock.Midnight(Clock.DayOf(now) + n)) == Clock.DayOf(now) + n;
  }

  /**
   * The corrected count differs from the as-written one only on the current day, where it is 0;
   * tomorrow at this time, the default target, is day 1.
   */
  lemma DaysAheadCounts(target: int, now: int)
    ensures Clock.DayOf(target) == Clock.DayOf(now) ==> DaysAhead(target, now) == 0
    ensures Clock.DayOf(target) != Clock.DayOf(now) ==> DaysAhead(target, now) == DaysFromNowAsWritten(target, now)
    ensures DaysAhead(now + Clock.SecondsPerDay, now) == 1
  {
    assert Clock.DayOf(now + Clock.SecondsPerDay) == Clock.DayOf(now) + 1;
  }

  /** The reply once the target is known and within range. */
  function FetchedReply(location: string, target: int, feed: ForecastFeed): string {
    var formatted := Clock.WeekdayMonthDay(target);
    match feed
    case ForecastStatus(code) => if code == 404 then NotFoundMessage(location) else ForecastHttpMessage
    case ForecastFailure => ForecastErrorMessage
    case Feed(list) =>
      match ForecastPick(list, Clock.IsoDate(Clock.DayOf(target)))
      case NoEntries => NoDataMessage(formatted)
      case Unreadable => ForecastErrorMessage
      case Picked(e) => ForecastText(location, formatted, e)
  }

  /** The range check on a parsed target: refuse the past and anything beyond five days. */
  function RangeChecked(location: string, target: int, now: int, fetch: string -> ForecastFeed): (r: string) {
    var days := DaysAhead(target, now);
    if days < 0 then PastMessage
    else if days > 5 then TooFarMessage(days)
    else FetchedReply(location, target, fetch(location))
  }

  /** `get_weather_forecast`, with a target earlier today counted as day 0. */
  function ForecastReply(location: string, dateStr: Option<string>, now: int, parseWhen: string -> Option<int>,
                         fetch: string -> ForecastFeed): string {
    match TargetInstant(dateStr, now, parseWhen)
    case None => BadDateMessage
    case Some(t) => RangeChecked(location, t, now, fetch)
  }

  /** Only targets zero to five days ahead reach the forecast service. */
  lemma ForecastRangeCheck(location: string, dateStr: Option<string>, now: int, parseWhen: string -> Option<int>,
                           fetch: string -> ForecastFeed, target: int)
    requires TargetInstant(dateStr, now, parseWhen) == Some(target)
    ensures DaysAhead(target, now) < 0 ==> ForecastReply(location, dateStr, now, parseWhen, fetch) == PastMessage
    ensures DaysAhead(target, now) > 5 ==>
      ForecastReply(location, dateStr, now, parseWhen, fetch) == TooFarMessage(DaysAhead(target, now))
    ensures 0 <= DaysAhead(target, now) <= 5 ==>
      ForecastReply(location, dateStr, now, parseWhen, fetch) == FetchedReply(location, target, fetch(location))
  {
    assert ForecastReply(location, dateStr, now, parseWhen, fetch) == RangeChecked(location, target, now, fetch);
  }

  /** A missing date means tomorrow at this time, which is in range. */
  lemma UndatedForecast(location: string, now: int, parseWhen: string -> Option<int>, fetch: string -> ForecastFeed)
    ensures ForecastReply(location, None, now, parseWhen, fetch) == FetchedReply(location, now + Clock.SecondsPerDay, fetch(location))
  {
    assert TargetInstant(None, now, parseWhen) == Some(now + Clock.SecondsPerDay);
    DaysAheadCounts(now + Clock.SecondsPerDay, now);
  }

  /** `get_weather_forecast`. */
  method GetWeatherForecast(location: string, dateStr: Option<string>, now: int, parseWhen: string -> Option<int>,
                            fetch: string -> ForecastFeed) returns (reply: string)
    ensures reply == ForecastReply(location, dateStr, now, parseWhen, fetch)
  {
    var target := TargetInstant(dateStr, now, parseWhen);
    if target.None? {
      return BadDateMessage;
    }
    var t := target.value;
    var days := DaysAhead(t, now);
    if days < 0 {
      return PastMessage;
    }
    if days > 5 {
      return TooFarMessage(days);
    }
    reply := AnswerFromFeed(location, t, fetch(location));
  }

  /** The part of `get_weather_forecast` after the request: the status check, then the entry choice. */
  method AnswerFromFeed(location: string, target: int, feed: ForecastFeed) returns (reply: string)
    ensures reply == FetchedReply(location, target, feed)
  {
    match feed {
      case ForecastStatus(code) =>
        reply := if code == 404 then NotFoundMessage(location) else ForecastHttpMessage;
      case ForecastFailure =>
        reply := ForecastErrorMessage;
      case Feed(list) =>
        var pick := SelectForecast(list, Clock.IsoDate(Clock.DayOf(target)));
        var formatted := Clock.WeekdayMonthDay(target);
        reply := match pick
          case NoEntries => NoDataMessage(formatted)
          case Unreadable => ForecastErrorMessage
          case Picked(e) => ForecastText(location, formatted, e);
    }
  }

  // ---------------------------------------------------------------------------
  // Current weather and the whole query

  /** What the current-weather endpoint answered. */
  datatype CurrentFeed =
    | Current(name: string, description: string, temperature: int, feelsLike: int, humidity: int, windSpeed: string)
    | CurrentStatus(code: int)
    | CurrentFailure

  const CurrentHttpMessage: string := "I'm sorry, I encountered an error while fetching the weather information. Please try again later."
  const CurrentErrorMessage: string := "I'm sorry, I had trouble getting weather information. Please try again later."

  /** `get_current_weather`. */
  function CurrentReply(location: string, feed: CurrentFeed): string {
    match feed
    case CurrentStatus(code) => if code == 404 then NotFoundMessage(location) else CurrentHttpMessage
    case CurrentFailure => CurrentErrorMessage
    case Current(name, d, t, f, h, w) =>
      "Current weather in " + name + ": " + d + ". "
        + "Temperature is " + Degrees(t) + ", feels like " + Degrees(f) + ". "
        + "Humidity is " + IntToString(h) + "% with wind speeds of " + w + " m/s."
  }

  /** The inputs a weather query arrives with besides its text. */
  datatype Sources = Sources(
    groups: seq<Option<string>>,
    datePhrase: Option<string>,
    now: int,
    parseWhen: string -> Option<int>,
    dateExtractor: Option<string -> Option<string>>,
    forecast: string -> ForecastFeed,
    current: string -> CurrentFeed)

  /** The date the forecast is asked for: the query's own, else the extractor's when one was passed. */
  function ForecastDate(input: string, src: Sources): (r: Option<string>)
    ensures var own := ExtractDate(input, src.datePhrase, src.now, src.parseWhen);
      (own.Some? && own.value != [] ==> r == own)
      && (own.None? && src.dateExtractor.None? ==> r.None?)
      && (own.None? && src.dateExtractor.Some? ==> r == src.dateExtractor.value(input))
  {
    var own := ExtractDate(input, src.datePhrase, src.now, src.parseWhen);
    if (own.None? || own.value == []) && src.dateExtractor.Some? then src.dateExtractor.value(input) else own
  }

  /** `process_weather_query`. */
  function WeatherReply(input: string, src: Sources): (r: string) {
    var found := LocationFrom(src.groups, 0);
    var location := if found == [] then DefaultLocation else found;
    if IsForecast(input) then ForecastReply(location, ForecastDate(input, src), src.now, src.parseWhen, src.forecast)
    else CurrentReply(location, src.current(location))
  }

  /** A query without a forecast word is answered with the current weather at the extracted location. */
  lemma PlainQueryGetsCurrentWeather(input: string, src: Sources)
    requires !IsForecast(input)
    ensures WeatherReply(input, src) == CurrentReply(LocationFrom(src.groups, 0), src.current(LocationFrom(src.groups, 0)))
  {
    LocationIsFirstCandidate(src.groups, 0);
  }

  /** A forecast query is answered by the forecast for the extracted location and the query's date. */
  lemma ForecastBranch(input: string, src: Sources)
    requires IsForecast(input)
    ensures WeatherReply(input, src)
         == ForecastReply(LocationFrom(src.groups, 0), ForecastDate(input, src), src.now, src.parseWhen, src.forecast)
  {
    LocationIsFirstCandidate(src.groups, 0);
  }

  /** `process_weather_query` as a sequence of calls. */
  method ProcessWeatherQuery(input: string, src: Sources) returns (reply: string)
    ensures reply == WeatherReply(input, src)
  {
    var location := ExtractLocation(src.groups);
    if location == [] {
      location := DefaultLocation;
    }
    if IsForecast(input) {
      var dateStr := ExtractDate(input, src.datePhrase, src.now, src.parseWhen);
      if (dateStr.None? || dateStr.value == []) && src.dateExtractor.Some? {
        dateStr := src.dateExtractor.value(input);
      }
      reply := GetWeatherForecast(location, dateStr, src.now, src.parseWhen, src.forecast);
    } else {
      reply := CurrentReply(location, src.current(location));
    }
  }
}
