# A voice personal assistant: event dialogue, calendar, weather and places

This project models the core of a voice personal assistant in Dafny and proves properties of
the model. The assistant hears one utterance at a time. It offers the utterance first to an
ongoing event-creation dialogue. If there is none, it asks whether the utterance starts an
event. After that come the weather handler, the places handler and finally a language model,
in that order. Whatever answers is spoken.

The model has eight modules, one file each:

- `Wrappers` (`wrappers.dfy`): `Option`.
- `Text` (`text.dfy`): the string operations the Python code uses, such as `lower()`, `in`,
  `strip()`, `split()`, `join`, and `int`/`str` on digit strings.
- `Clock` (`clock.dfy`): the parts of `datetime` the handlers use.
  - Day numbers count from 0001-01-01, so Monday is weekday 0.
  - Instants are seconds.
  - It parses the zero-padded `%Y-%m-%d`, `%H:%M` and `%H:%M:%S` forms.
  - It has the `strftime` pieces that are printed.
- `Events` (`events.dfy`): `EventHandler` of `adding_events.py`.
  - `Step` is one call of `process_query`, written as a function on a `Session` value. A session is
    the six-field draft plus `is_creating_event`, `is_updating_event`, `current_question` and
    `awaiting_confirmation`.
  - The class `EventHandler` holds the same state in mutable fields. Its methods are proved
    equal to `Step`, `NextQuestion` and `FinalizeReply`.
  - The language model, JSON decoding, the MySQL insert and the Google Calendar insert are
    oracles held in an `Env`.
- `Calendar` (`calendar.dfy`): `GoogleCalendarHandler`.
  - The primary calendar is the field `events` of the class.
  - Listing, lookup by id, update and delete are operations on that sequence.
  - The time scanner `(\d{1,2}):?(\d{2})?\s*(am|pm)?` and the reminder scanner `(\d+)\s*minutes?`
    are written out as functions.
- `Weather` (`weather.dfy`): `WeatherHandler`. It covers:
  - the weather intent test;
  - the date a query names;
  - the location a query names;
  - the forecast range check;
  - the choice of one three-hourly forecast entry for the target day.
  OpenWeatherMap is an oracle from a location to a parsed feed, or to the HTTP status or failure.
- `Location` (`location.dfy`): `LocationHandler`. It covers:
  - routing of a query to directions, nearby search or general search;
  - the 66-entry place-type table, matched in dictionary order;
  - the widening search radii;
  - the grocery reordering;
  - the reply formats.
  The Google Places, Geocoding and Directions services are oracles.
- `Assistant` (`assistant.dfy`): `PersonalAssistant.process_user_input`.
  - `Respond` is the specification of one turn.
  - The class's `ProcessUserInput` is proved to follow it.
  - It appends exactly one spoken text per turn.

The capture groups of the regular expressions that pick a location, a date phrase, a place type,
a destination or an origin out of free text are inputs to the model. These are the
`(?:in|near|around|at) …`, `(on|for|this|next) …`, `(nearest|closest|nearby) …`,
`(directions to|…) …` and `from … to` patterns.

So are `datetime.now()` (a parameter `now`) and `dateparser.parse` (an oracle to a day or an
instant).

Some behaviour of the source is modelled as written, not as it was presumably meant:

- The reminder catalog is searched in its declared order for a label contained in the answer.
  So "15 minutes" matches "5 minutes" first, and is stored and synced as a five-minute
  reminder (`Events.FifteenMinutesMatchesFive`, `Events.FifteenMinutesStoredAsFive`).
- `_get_next_question` stops at the first empty field. The details and reminder fields start
  non-empty, so their questions come only after name, date, time and location are filled.
- `check_conflicts` in the event handler never reports a conflict.
- In the type table, the keys "parking", "car park", "book store" and "bookstore" can never be
  the first match. Each of them contains an earlier key ("park" or "store").

Three other faults of the source are not followed by the end-to-end model: the weather reply,
the places reply and the assistant's turn are built on the corrected members listed under
"## Findings". The as-written behaviour is stated beside them, and "## Left out" names the
replies that differ.

## Model

| member | source | states |
|---|---|---|
| Events.CatalogMatch | adding_events.py:49-57 | a reminder minute count is found exactly when some catalog label occurs in the lower-cased text |
| Events.MatchReminder | adding_events.py:118-126 | the loop over the reminder catalog, breaking at the first label found, yields the catalog match |
| Events.StoredReminderCases | adding_events.py:114-143 | the stored reminder is "No reminder" exactly when the draft's reminder is empty or "No reminder"; an unmatched reminder is stored as "10 minutes before" |
| Events.FifteenMinutesMatchesFive | adding_events.py:49-57 | the answer "15 minutes" matches the "5 minutes" label first |
| Events.FifteenMinutesStoredAsFive | adding_events.py:114-143 | so the answer "15 minutes" is saved as "5 minutes before" |
| Events.BodyReminderAgreesWithRow | adding_events.py:161-216 | the calendar body ends one hour after it starts; its reminder override is the minute count stored in the database row, and no override means the row holds the 10-minute default or "No reminder" |
| Events.OverrideAgreesWithStored | adding_events.py:114-143 | the reminder the calendar sync sends agrees with the database row's reminder text |
| Events.FinalizeIgnoresCalendarAfterFailedSave | adding_events.py:490-508 | when the database save fails, the calendar is not consulted and the reply reports the save error |
| Events.FinalizeReplyAfterSave | adding_events.py:499-506 | after a successful save the reply names the event, and the sync clause is added exactly when the calendar insert succeeded |
| Events.IsEventQuery | adding_events.py:234-246 | true exactly when one of the fifteen event phrases occurs in the lower-cased query |
| Events.UnfencedReplyUnchanged | adding_events.py:273-282 | a model reply without a code fence is parsed as it is |
| Events.FencedJsonRoundTrip | adding_events.py:273-282 | wrapping JSON text in a ```` ```json ```` fence and taking the fenced body gives back the stripped text |
| Events.CheckConflicts | adding_events.py:312-331 | the only replies are "No conflicts found" and the unparsed message, and the latter occurs exactly when no end time is given and the date and start time do not parse |
| Events.FirstPendingFrom | adding_events.py:449-477 | finds the first field, in question order, that still needs asking, or reports that none does |
| Events.NextQuestionAsksFirstPending | adding_events.py:449-488 | the next question asks about the first pending field; with none pending it clears the question, starts awaiting confirmation and returns the summary; the draft is unchanged |
| Events.FirstPendingCases | adding_events.py:452-477 | the pending-field search in closed form: name, date, time and location when empty, then details and reminder when still at their defaults |
| Events.MergeTruthy | adding_events.py:341-344 | the merged draft has exactly the old keys plus the truthy extracted keys, and each key's value is the extracted one when truthy, else the old one |
| Events.MergeTruthyIsPointwise | adding_events.py:341-344 | any draft that agrees pointwise with the merge rule is the merge |
| Events.ApplyKnown | adding_events.py:391-394 | an update keeps the draft's key set and overwrites exactly the keys the update names |
| Events.NextQuestionKeepsInv | adding_events.py:449-488 | choosing the next question leads to a reachable state |
| Events.IdleStepKeepsInv | adding_events.py:336-351 | an idle turn leads to a reachable state |
| Events.UpdateStepKeepsInv | adding_events.py:365-403 | an update turn leads to a reachable state |
| Events.AnswerStepKeepsInv | adding_events.py:406-444 | an answer turn leads to a reachable state |
| Events.StepKeepsInv | adding_events.py:333-447 | every turn from a reachable state leads to a reachable state: six draft fields, an idle handler equal to the fresh one, and an active one in exactly one of the question, update and confirmation modes |
| Events.SummaryIsNotFallback | adding_events.py:297-310 | the summary is never the fallback reply |
| Events.NextQuestionIsNotFallback | adding_events.py:449-488 | the next question is never the fallback reply |
| Events.FinalizeReplyIsNotFallback | adding_events.py:490-524 | the commit reply is never the fallback reply |
| Events.ConfirmStepIsNotFallback | adding_events.py:354-362 | a confirmation turn never gives the fallback reply |
| Events.UpdateStepIsNotFallback | adding_events.py:365-403 | an update turn never gives the fallback reply |
| Events.AnswerStepIsNotFallback | adding_events.py:406-444 | an answer turn never gives the fallback reply |
| Events.NoFallbackInReachableStates | adding_events.py:446-447 | the "something went wrong" reply is unreachable from every reachable state |
| Events.IdleIgnoresOtherQueries | adding_events.py:336-351 | an idle handler returns nothing and stays as it is exactly when the query is not an event query |
| Events.IdleEventQueryStartsCreation | adding_events.py:336-350 | an event query merges the truthy extracted values into the fresh draft, starts creation and asks about the first pending field |
| Events.ConfirmationReplies | adding_events.py:354-362 | "yes" commits and resets the handler; otherwise "no" switches to update mode; anything else re-prompts with the state unchanged |
| Events.SecondYesIsIgnored | adding_events.py:336-362 | confirming twice commits once, because the second "yes" reaches an idle handler and is not an event query |
| Events.UpdateTurn | adding_events.py:365-403 | an update keeps the draft's keys; a JSON object reply applies the known fields and awaits confirmation with the new summary; any other reply leaves the state as it was and asks again |
| Events.StepAnswers | adding_events.py:406-410 | with a question pending, the turn is the answer to that question |
| Events.DateAnswerTurn | adding_events.py:412-424 | a date answer is stored only when the normalised reply has ten characters, after which the date is not asked again; otherwise nothing changes and the user is asked again |
| Events.TimeAnswerTurn | adding_events.py:426-438 | a time answer is stored when the normalised reply is non-empty, after which the time is not asked again; otherwise nothing changes and the user is asked again |
| Events.PlainAnswerTurn | adding_events.py:439-444 | any other field stores the raw answer and moves on to the next question |
| Events.MissingModelRaises | adding_events.py:378-432 | without a language model the update, date and time branches raise, leaving the session unchanged |
| Events.NextQuestionSpeaks | adding_events.py:449-488 | the next question is never empty |
| Events.ConfirmStepSpeaks | adding_events.py:354-362 | a confirmation turn always speaks |
| Events.UpdateStepSpeaks | adding_events.py:365-403 | an update turn speaks or raises |
| Events.AnswerStepSpeaks | adding_events.py:406-444 | an answer turn speaks or raises |
| Events.ActiveStepSpeaks | adding_events.py:353-447 | during a dialogue every turn speaks or raises; the handler never returns silence then |
| Events.RaisedKeepsSession | adding_events.py:333-447 | a turn that raises leaves the session as it was |
| Events.IdleStepStarts | adding_events.py:336-351 | an idle turn that speaks has started creation; one that does not speak changes nothing; a non-event query is declined |
| Events.EventHandler.constructor | adding_events.py:13-57 | a new handler has the fresh draft and no mode set |
| Events.EventHandler.SaveEventToDb | adding_events.py:106-159 | the row inserted is the draft's fields with the reminder text converted, and the reply is the store's |
| Events.EventHandler.AddToGoogleCalendar | adding_events.py:161-232 | the sync succeeds exactly when a service exists, the date and time parse, and the insert succeeds |
| Events.EventHandler.GetNextQuestion | adding_events.py:449-488 | updates the fields as specified by the next-question rule |
| Events.EventHandler.FinalizeEvent | adding_events.py:490-524 | resets the handler to the fresh state and returns the commit reply for the old draft |
| Events.EventHandler.MergeExtracted | adding_events.py:341-344 | the loop copying truthy extracted values gives the merged draft; the modes are untouched |
| Events.EventHandler.ApplyUpdates | adding_events.py:391-394 | the loop over the update's fields gives the known-keys update; the modes are untouched |
| Events.EventHandler.HandleUpdate | adding_events.py:365-403 | the update branch changes the fields as the update turn specifies |
| Events.EventHandler.AnswerQuestion | adding_events.py:406-444 | the answer branch changes the fields as the answer turn specifies |
| Events.EventHandler.ProcessQuery | adding_events.py:333-447 | one call changes the state and answers exactly as one turn specifies |
| Calendar.Listing | googlecalendar_handler.py:59-67 | a listing holds exactly the calendar's events overlapping the window |
| Calendar.IndexOfId | googlecalendar_handler.py:284-287 | finds an event with the given id, or reports that none has it |
| Calendar.ScanTime | googlecalendar_handler.py:132-136 | the time scanner matches exactly when the text has a digit; hour and minute have at most two digits |
| Calendar.ScanTimeReading | googlecalendar_handler.py:132-136 | the match starts at the first digit: the hour is the one or two digits there, the minute the two digits after an optional colon, and 0 when they are missing |
| Calendar.To24Hour | googlecalendar_handler.py:138-142 | "pm" below 12 adds twelve, "12 am" is hour 0, anything else keeps the hour; for 1 to 12 this is the usual 12-hour conversion |
| Calendar.NormaliseTime | googlecalendar_handler.py:129-146 | the normalised time always has the `HH:MM` shape; a text without a digit gives "12:00"; otherwise it is the scanned reading, corrected to 24 hours, as `HH:MM` |
| Calendar.NormalisedTimeParses | googlecalendar_handler.py:144-151 | the normalised time parses as `%H:%M` exactly when the 24-hour reading is a valid time, and then gives that time of day |
| Calendar.ScanTimeExample1 | googlecalendar_handler.py:132-142 | "3:30 pm" is read as 3:30 with "pm" |
| Calendar.ScanTimeExample2 | googlecalendar_handler.py:129-146 | "15:45" normalises to itself |
| Calendar.DigitRun | googlecalendar_handler.py:102 | measures the maximal run of digits at a position |
| Calendar.MinutesFrom | googlecalendar_handler.py:102-104 | the first `(\d+)\s*minutes?` match at or after a position, or none |
| Calendar.StoredReminderScansBack | googlecalendar_handler.py:98-104 | the reminder text the event handler stores, "N minutes before", is read back as N minutes |
| Calendar.FieldReminderMinutes | googlecalendar_handler.py:626-635 | an empty value gives 10; otherwise the scanned minutes, else the value itself when it is all digits, else 10 |
| Calendar.ConflictWindow | googlecalendar_handler.py:239-267 | the conflicts are exactly the events that end after one hour before the time and start before two hours after it |
| Calendar.ConflictWindowExample | googlecalendar_handler.py:250-251 | a 10:00-11:00 event conflicts with a 10:30 request but not with a 12:00 one |
| Calendar.MoveStart | googlecalendar_handler.py:320-330 | moving an event keeps its duration and changes nothing but its start and end |
| Calendar.Rescheduled | googlecalendar_handler.py:289-330 | a reschedule keeps the duration and every other field and starts at the requested day and time; an unparsed date or time gives its error message; with both parsed, a timed event is moved exactly when the 24-hour reading is a valid time, and otherwise the reschedule error is given |
| Calendar.ParsesWhenInRange | googlecalendar_handler.py:326-327 | a scanned reading's `HH:MM` text parses exactly when it is a valid time of day |
| Calendar.NormalisedTimeStart | googlecalendar_handler.py:325-329 | the rescheduled start lies on the target day at the requested hour and minute |
| Calendar.Reschedule | googlecalendar_handler.py:280-350 | the reschedule succeeds exactly when the service answers, the id is found and the event can be moved, and then only that event changes; a failure leaves the calendar as it was and replies with the lookup error or the move's own message |
| Calendar.DateEdit | googlecalendar_handler.py:561-590 | an unparsed date gives its message; a parsed date moves a timed event to that day at its old time of day, keeping the duration and every other field, and fails with the update error for an all-day event |
| Calendar.TimeEdit | googlecalendar_handler.py:591-625 | an unscanned time gives its message; a scanned time moves a timed event to that time of day on its old day, keeping the duration and every other field, exactly when the 24-hour reading is valid; otherwise the update error |
| Calendar.EditedField | googlecalendar_handler.py:554-643 | a name or summary edit writes the summary, a location edit the location, a details or description edit the description, a reminder edit the scanned popup minutes; date and time edits are the date and time branches; an unknown field changes nothing; every edit keeps the id and the duration |
| Calendar.UpdateField | googlecalendar_handler.py:545-656 | the update succeeds exactly when the service answers, the id is found and the edit applies, and then only that event changes; a failure leaves the calendar as it was and replies with the lookup error or the edit's own message |
| Calendar.UnknownFieldIsANoOp | googlecalendar_handler.py:554-652 | an unknown field name reports success and leaves the event as it was |
| Calendar.Cancel | googlecalendar_handler.py:492-513 | the cancel succeeds exactly when the service answers and the id exists, and then removes exactly that event |
| Calendar.InsertTime | googlecalendar_handler.py:106-146 | the inserted time is always `HH:MM`; it is "12:00" when the date or the time is missing or empty, and the normalised time otherwise |
| Calendar.NewEvent | googlecalendar_handler.py:95-192 | the new event lasts one hour from its start, has the scanned reminder (10 minutes by default), and carries the given name, location and details |
| Calendar.SlotAt | googlecalendar_handler.py:413-436 | the slot for an hour runs from that hour to the next |
| Calendar.FreeAmong | googlecalendar_handler.py:438-476 | the free slots are exactly the candidates no timed event of the day overlaps |
| Calendar.DaySlots | googlecalendar_handler.py:410-436 | the candidates are the eleven hourly slots from 8:00 to 19:00 |
| Calendar.PyPrefix | googlecalendar_handler.py:479-480 | Python's `[:k]` slice, negative `k` included |
| Calendar.FreeAmongOrdered | googlecalendar_handler.py:438-476 | filtering keeps the slots in ascending order |
| Calendar.PrefixKeeps | googlecalendar_handler.py:479-480 | slicing keeps the order and invents no slot |
| Calendar.FreeSlotsSound | googlecalendar_handler.py:352-490 | every slot returned is an hourly slot between 8:00 and 19:00 that no event blocks, in ascending order |
| Calendar.FreeSlotsComplete | googlecalendar_handler.py:438-480 | with room for all eleven, every free hourly slot is returned |
| Calendar.FreeSlotsEarlierFree | googlecalendar_handler.py:438-480 | for any slot count, the slots returned are the earliest free ones: a free hourly slot before a returned slot is returned too |
| Calendar.EarlierInPrefix | googlecalendar_handler.py:479-480 | a prefix of an ascending slot list holding a slot holds every listed slot that starts before it |
| Calendar.TouchingEventsDoNotBlock | googlecalendar_handler.py:467-470 | an event that only touches a slot's boundary does not block it |
| Calendar.DayPage | googlecalendar_handler.py:52-67 | a day's page is the first ten events of the day's listing, all overlapping that day; when the day has at most ten, every one of them is on the page |
| Calendar.EventsTextCases | googlecalendar_handler.py:69-88 | the "no events" reply is given exactly for an empty page; otherwise the reply is the prefix and the lines joined by "; ", line `i` being the line of event `i` |
| Calendar.EachAt | googlecalendar_handler.py:72-86 | element `i` of the per-event list is the formatting of event `i` |
| Calendar.FormatEvents | googlecalendar_handler.py:72-86 | the loop formats one line per event |
| Calendar.HourlySlots | googlecalendar_handler.py:412-436 | the loop builds the eleven hourly candidates |
| Calendar.KeepFree | googlecalendar_handler.py:438-476 | the nested loop keeps exactly the free candidates |
| Calendar.GoogleCalendarHandler.GetEvents | googlecalendar_handler.py:45-93 | the day's page formatted, "no events" for an empty day, or the fetch error when the service is down |
| Calendar.GoogleCalendarHandler.InsertEvent | googlecalendar_handler.py:95-197 | when the service answers, the new event is appended to the calendar; otherwise nothing changes |
| Calendar.GoogleCalendarHandler.CheckForConflicts | googlecalendar_handler.py:199-278 | an unparsed date or time gives its error; conflicts found are events of the calendar |
| Calendar.GoogleCalendarHandler.ConflictsAreTheWindow | googlecalendar_handler.py:239-272 | with a valid date and time, the check reports exactly the events of the conflict window |
| Calendar.GoogleCalendarHandler.RescheduleEvent | googlecalendar_handler.py:280-350 | the calendar and the reply change as the reschedule specifies |
| Calendar.GoogleCalendarHandler.UpdateEventField | googlecalendar_handler.py:545-656 | the calendar and the reply change as the field update specifies |
| Calendar.GoogleCalendarHandler.CancelEvent | googlecalendar_handler.py:492-513 | the calendar and the reply change as the cancel specifies |
| Calendar.GoogleCalendarHandler.FindFreeSlots | googlecalendar_handler.py:352-490 | an unparsed date gives no slots; otherwise the free slots of that day, the day counting as empty when the listing fails |
| Weather.PhrasesMentionWeather | weather_handler.py:173-178 | every weather phrase contains "weather" |
| Weather.PhrasesAreRedundant | weather_handler.py:160-180 | the phrase test adds nothing to the keyword test |
| Weather.WeekendOffset | weather_handler.py:245-251 | the weekend is one to seven days ahead and lands on a Saturday |
| Weather.WeekendIsNextSaturday | weather_handler.py:245-251 | the weekend date computed from any day is a Saturday one to seven days later |
| Weather.DayAfterTomorrowGivesTomorrow | weather_handler.py:224-229 | as written, "day after tomorrow" gets tomorrow's date |
| Weather.ExtractDate | weather_handler.py:221-253 | "day after tomorrow" gets the date two days ahead; every other query gets the date of the original rule order |
| Weather.WeekendQueryNamesSaturday | weather_handler.py:244-251 | a weekend query without a relative day is answered with the next Saturday |
| Weather.KeepWordChars | weather_handler.py:205-210 | the cleaned location text holds only word characters, spaces and commas, and a text made only of those is kept as it is |
| Weather.KeepWordCharsOne | weather_handler.py:210 | one character is kept exactly when it is a word character, a space or a comma |
| Weather.KeepWordCharsAppend | weather_handler.py:210 | the cleaning works character by character: it distributes over concatenation, so allowed characters are kept in order |
| Weather.Unfilled | weather_handler.py:211-212 | exactly the words that are not filler words remain |
| Weather.LocationCandidate | weather_handler.py:205-218 | a capture gives a location exactly when some non-filler word remains, and that location is non-empty |
| Weather.LocationCandidateWords | weather_handler.py:205-218 | the location is the capture's lower-cased non-filler words joined by spaces: splitting it gives exactly those words back |
| Text.WordsOfJoin | weather_handler.py:217 | splitting words joined by single spaces gives the words back |
| Weather.LocationIsFirstCandidate | weather_handler.py:182-219 | the location is some pattern's usable capture or the default, the default when no capture is usable, so it is never empty |
| Weather.FirstUsableCandidate | weather_handler.py:201-219 | when pattern `k` is the first, in declared order, whose capture is usable, the location is that capture's candidate |
| Weather.FirstFromAt | weather_handler.py:201-219 | a search for the first present value returns the value at the first position holding one |
| Weather.LocationFromIsFirstFrom | weather_handler.py:201-219 | the pattern loop is the search for the first usable candidate, with the default at the end |
| Weather.ExtractLocation | weather_handler.py:182-219 | the loop over the patterns returns the first usable capture or the default |
| Weather.DayForecasts | weather_handler.py:108-114 | exactly the feed entries whose date part is the target date |
| Weather.NoonScan | weather_handler.py:120-128 | finds the first entry at noon, or reports that none is; an entry without a time part breaks the scan |
| Weather.ForecastPick | weather_handler.py:108-130 | a picked entry is from the feed and on the target date; there is no data exactly when the day has no entries |
| Weather.ForecastPickRule | weather_handler.py:120-130 | when readable entries lead to a noon entry, some noon entry is picked |
| Weather.FirstNoonIsPicked | weather_handler.py:120-125 | when readable entries without noon lead to a noon entry, that first noon entry is the one picked |
| Weather.MiddleEntryRule | weather_handler.py:129-130 | a day without a noon entry picks its middle entry |
| Weather.SelectForecast | weather_handler.py:106-131 | the loops over the feed choose the specified entry |
| Weather.TodayIsPastAsWritten | weather_handler.py:81-86 | as written, a forecast for today is refused as past at any moment after midnight; corrected, it is day 0 |
| Weather.DaysAheadCounts | weather_handler.py:58-84 | the corrected count is 0 for a target earlier or later today and the as-written count for any other day; tomorrow at this time is day 1 |
| Weather.MidnightDaysAhead | weather_handler.py:66-84 | after midnight, the date `n` days ahead is `n - 1` whole days away, as written and corrected alike (so a date six days ahead is fetched) |
| Weather.ForecastRangeCheck | weather_handler.py:81-89 | the past is refused, more than five days ahead is refused with the count, and only targets zero to five days ahead are fetched |
| Weather.UndatedForecast | weather_handler.py:58-62 | a forecast without a date is for tomorrow at this time |
| Weather.GetWeatherForecast | weather_handler.py:54-158 | the forecast reply as specified, with a target earlier today counted as day 0 |
| Weather.AnswerFromFeed | weather_handler.py:91-158 | the reply for a fetched feed as specified |
| Weather.ForecastDate | weather_handler.py:268-276 | the query's own date when it has one, else the date extractor's, if one was passed |
| Weather.PlainQueryGetsCurrentWeather | weather_handler.py:255-280 | a query without a forecast word is answered with the current weather at the extracted location |
| Weather.ForecastBranch | weather_handler.py:255-277 | a forecast query is answered with the forecast for the extracted location and the query's date |
| Weather.ProcessWeatherQuery | weather_handler.py:255-285 | the reply of the weather query as specified |
| Location.RouteOf | location_handler.py:26-42 | directions terms win, then nearby terms, else a general search |
| Location.LocationOf | location_handler.py:425-480 | "near me" gives the default place; no capture gives none; a generic term gives the default point; otherwise the geocoded point, or the default point under the captured name |
| Location.KeyIndexFrom | location_handler.py:179-183 | the first table key, in order, contained in the text, or none |
| Location.LookupIn | location_handler.py:179-183 | the loop with its early break returns the first matching key's value |
| Location.LookupType | location_handler.py:110-183 | the type lookup over the 66-entry table |
| Location.ShadowedEntry | location_handler.py:110-183 | a key containing an earlier key is never the first match |
| Location.ParkingEntries | location_handler.py:110-177 | places the "park" key before the two parking keys |
| Location.ParkingKeysContainPark | location_handler.py:110-177 | both parking keys contain "park" |
| Location.ParkingIsLookedUpAsPark | location_handler.py:110-183 | the parking entries are never used; a query with "parking" matches an entry no later than "park" |
| Location.BookStoreEntries | location_handler.py:110-177 | places the "store" key before the two book-store keys |
| Location.BookStoreKeysContainStore | location_handler.py:110-177 | both book-store keys contain "store" |
| Location.BookStoreIsLookedUpAsStore | location_handler.py:110-183 | the book-store entries are never used |
| Location.ResolvedType | location_handler.py:179-200 | the table's type when the query matches; otherwise the words after "nearest", by table lookup or as they stand |
| Location.NearbyAt | location_handler.py:212-227 | a known type is sent as the type, with the grocery keyword exactly for grocery stores; anything else is sent as the keyword |
| Location.RadiusSearch | location_handler.py:229-261 | a non-empty result comes from the first radius, in increasing order, that yields places; an empty one means no radius did |
| Location.SearchRadii | location_handler.py:229-261 | the radius loop with its breaks gives the first radius's results |
| Location.KeepMembers | location_handler.py:285-303 | the places kept with one rank are exactly those of that rank |
| Location.GroceryOrderMembers | location_handler.py:285-303 | the grocery filter keeps exactly the places whose lower-cased names contain none of "hotel", "apartment" and "accommodation" |
| Location.GroceryOrderShape | location_handler.py:285-303 | the grocery-named places come first in reverse order, then the others in order |
| Location.FilterGroceries | location_handler.py:285-303 | the loop with its inserts at the front and appends at the back builds that order |
| Location.Shown | location_handler.py:285-308 | at most the limit is shown; without the grocery reorder (or when it leaves nothing) the first results up to the limit; with it, the first reordered places up to the limit, all found places that are not hotels |
| Location.FormatPlaces | location_handler.py:310-327 | the loop numbers and formats every place |
| Location.ResolveType | location_handler.py:179-200 | the type-resolution steps give the specified type |
| Location.CollectResults | location_handler.py:229-283 | the radius loop and the text fallback give the specified results |
| Location.HandleNearby | location_handler.py:102-335 | the nearby reply as specified |
| Location.GeneralSearchAlwaysFailsAsWritten | location_handler.py:62-64 | as written, a search that finds places still answers with the error reply; with the call made, the places are listed |
| Location.GeneralReply | location_handler.py:44-100 | a failed request gives the error reply; a search with places lists the first five; the status decides every other reply |
| Location.FirstFive | location_handler.py:77 | at most five, and five whenever there are that many |
| Location.TravelMode | location_handler.py:357-364 | walking before transit before bicycling, and driving exactly when none applies |
| Location.Origin | location_handler.py:347-355 | the origin is the stripped `from … to` capture when that is non-empty, and the default name otherwise, so it is never empty |
| Location.DirectionsReplyText | location_handler.py:337-343 | a query without a destination is answered by asking for one |
| Location.DirectionsComeFirst | location_handler.py:33-35 | a directions query is routed to directions whatever else it mentions |
| Location.ProcessLocationQuery | location_handler.py:26-42 | the location reply as specified, the general search reading the reply it receives |
| Assistant.OtherReply | assistant.py:138-153 | weather when the weather test holds; else places when a location keyword occurs; else the language model; and the reply is that handler's |
| Assistant.DialogueKeepsTheTurn | assistant.py:116-129 | during a dialogue the event handler answers, or the turn fails with the apology and the session unchanged; the flag afterwards says whether a dialogue goes on |
| Assistant.IdleRouting | assistant.py:131-153 | with no dialogue, a non-event query leaves the event handler as it was and goes to the later handlers |
| Assistant.IdleTurn | assistant.py:131-136 | with no dialogue, a turn either starts one and sets the flag, or leaves the session alone with the flag clear |
| Assistant.FlagTracksDialogue | assistant.py:116-136 | turn after turn, the assistant's flag says exactly whether the event handler is creating, and the handler stays in a reachable state |
| Assistant.AnswerElsewhere | assistant.py:138-153 | the later handlers' calls give the specified reply |
| Assistant.PersonalAssistant.constructor | assistant.py:19-50 | a new assistant has a fresh event handler, no dialogue and nothing spoken |
| Assistant.PersonalAssistant.ProcessUserInput | assistant.py:108-159 | state and speech change as one turn specifies, exactly one text is spoken, and the flag keeps mirroring the dialogue |
| Assistant.PersonalAssistant.Detect | assistant.py:131-153 | the event detector and the later handlers change state and speech as specified |

## Left out

- Logging, `print`, the conversation log, transcription, text-to-speech and the language model's
  internals are not modelled. Prompt wording is not modelled either: each prompt is a `Prompt`
  value naming what is asked.
- Building the service clients is left out. This covers OAuth, `_setup_calendar_api`,
  `initialize_google_calendar`, `connect_to_db` and the API keys. A missing calendar service is
  `Env.calendar == None`; a service that does not answer is `online == false`.
- HTTP error details are not modelled. A failed request is one constructor (`RequestFailed`,
  `ForecastFailure`, `DirectionsFailed`, `NoConnection`), and `str(e)` texts are not reproduced.
- Time zones are not modelled. Every `dateTime` is read as UTC and `Europe/London` localisation is
  not applied. `datetime.now()` is whole seconds.
- `strptime` is modelled for zero-padded fields only (`%Y-%m-%d`, `%H:%M`, `%H:%M:%S`). Python also
  accepts unpadded numbers there.
- Calendar.Listing: the `orderBy='startTime'` ordering of listings is not modelled. A listing keeps
  the calendar's own order.
- `find_events_by_query` (googlecalendar_handler.py:515-543) and `test_api_connection`
  (location_handler.py:482) are not part of this model.
- Unicode regex classes are not modelled. `\w` and `[A-Za-z\s]` are read over ASCII, and `lower()`
  maps ASCII letters only.
- Clock: the round trip between `IsoDate` and `ParseIsoDate` is not proved.
- Floating-point values are kept as their text: temperatures as integers of degrees, wind speed,
  coordinates and ratings as strings.
- The regular expressions that capture free text are not modelled. These are the weather location
  patterns, the date phrase, the nearest-type phrase, the destination, the origin and the location
  mention. Their capture groups are oracle inputs. Only the time and reminder scanners are written
  out.
- The HTML tag stripping of direction steps (`re.sub('<[^<]+?>', '', …)`) is not modelled. Steps
  arrive already stripped.
- Weather: the `isinstance(date_str, datetime)` branch is left out, because the assistant always
  passes strings.
- Weather: the `ImportError` branch for a missing `dateparser` is left out.
- Weather: current-weather formatting is modelled but has no property beyond the reply it
  produces.
- Location.StepsText: the numbering of direction steps has no stated contract. It is covered only
  through `DirectionsReplyText`.
- Location.DirectionsReplyText: only the missing-destination case is stated in the contract. The
  other replies are its body.
- Assistant.AnswersFor: the weather, places and language-model answers are computed as values,
  because those handlers change no state. A crash inside them is not modelled: their own
  `try/except` blocks turn every failure into a reply.
- Assistant.PersonalAssistant.ProcessUserInput: an exception raised by `insert_conversation` is
  not modelled. The store is an oracle that always returns.
- Events.CheckConflicts: its printed window text is not modelled, because only the returned string
  reaches the caller.
- Weather.WeatherReply, Location.LocationReply, Assistant.AnswersFor and
  Assistant.PersonalAssistant.ProcessUserInput are built on the corrected members of the
  findings below, not on the as-written ones. So they do not reproduce these replies of the
  source: "forecast for today" after midnight (the source refuses it as a past date), "weather the
  day after tomorrow" (the source gives tomorrow's forecast) and "find a restaurant in edinburgh"
  (the source answers "I encountered an error while searching."). The as-written behaviour is
  stated by the findings' as-written members only.
- Events.Value: the values the JSON extractor and the update prompt return are taken to be
  strings or null. A number there, such as a reminder of 15, makes the source raise
  `AttributeError` on `.lower()` at adding_events.py:122 and leave the dialogue awaiting
  confirmation; this is not modelled.

## Findings

| source | as written | input that shows it | evidently intended | confidence | as-written member | corrected member |
|---|---|---|---|---|---|---|
| location_handler.py:64 | `data = response.json` binds the method without calling it, so `data['status']` raises and every general search ends in "I encountered an error while searching." | any general query, e.g. "restaurants in Edinburgh", whose search returns places | `data = response.json()`, so the found places are listed | high, not executed | Location.GeneralSearchAlwaysFailsAsWritten | Location.GeneralReply |
| weather_handler.py:224-229 | "tomorrow" is tested before "day after tomorrow", and the latter contains the former | "weather the day after tomorrow" gets tomorrow's date | the date two days ahead | high, not executed | Weather.DayAfterTomorrowGivesTomorrow | Weather.ExtractDate |
| weather_handler.py:83-86 | `(target_date - now).days` rounds a negative fraction of a day down to -1 | "forecast for today" at any time after midnight: the target is midnight today and is refused as past | a target earlier today counts as day 0 and is forecast; other days keep the rounded-down count | medium, not executed | Weather.TodayIsPastAsWritten | Weather.DaysAheadCounts |
