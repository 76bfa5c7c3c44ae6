/**
 * The event-creation dialogue of `EventHandler`: a six-field draft, four mode fields, and one
 * turn of `process_query` that routes an utterance to intent detection, confirmation, an update
 * request, the answer to a pending question or the fallback reply.
 *
 * The language model, JSON decoding, the MySQL store and the Google Calendar service are
 * oracles held in an `Env`. `Step` is the specification of one turn on a `Session` value;
 * the `EventHandler` class below carries the same state in mutable fields and its methods are
 * proved to agree with `Step`, `NextQuestion` and `FinalizeReply`.
 */
module Events {
  import opened Wrappers
  import opened Text
  import Clock

  // ---------------------------------------------------------------------------
  // Draft values

  /** A draft field: JSON `null` / Python `None`, or a string. */
  datatype Value = Null | Str(text: string)

  /** Python truthiness of a field value. */
  predicate Truthy(v: Value) {
    v.Str? && v.text != []
  }

  /** `f"{v}"`. */
  function Render(v: Value): string {
    match v
    case Null => "None"
    case Str(t) => t
  }

  type Draft = map<string, Value>

  const NoDetails: string := "No details provided"
  const NoReminder: string := "No reminder"

  /** The six draft fields, in the order the next question is chosen. */
  const Fields: seq<string> := ["name", "date", "time", "location", "details", "reminder"]

  /** The draft a handler starts with and returns to after every commit. */
  const FreshDraft: Draft := map[
    "name" := Null, "date" := Null, "time" := Null, "location" := Null,
    "details" := Str(NoDetails), "reminder" := Str(NoReminder)]

  /** `d.get(k)`. */
  function Get(d: Draft, k: string): Value {
    if k in d then d[k] else Null
  }

  predicate HasFields(d: Draft) {
    "name" in d && "date" in d && "time" in d && "location" in d && "details" in d && "reminder" in d
  }

  // ---------------------------------------------------------------------------
  // The session: draft plus mode

  datatype Session = Session(draft: Draft, creating: bool, updating: bool, question: Option<string>, awaiting: bool)

  const Fresh: Session := Session(FreshDraft, false, false, None, false)

  /**
   * The states a dialogue can reach: the draft keeps its six fields, an idle handler is exactly
   * the fresh one, and an active one is in exactly one of three modes: collecting the answer to
   * a question, waiting for an update request, or waiting for a yes/no confirmation.
   */
  predicate Inv(s: Session) {
    HasFields(s.draft)
    && (s.question.Some? ==> s.question.value in Fields)
    && (!s.creating ==> s == Fresh)
    && (s.creating ==>
          (s.question.Some? && !s.updating && !s.awaiting) || (s.question.None? && s.updating != s.awaiting))
  }

  // ---------------------------------------------------------------------------
  // Oracles

  /** The requests sent to the language model, without their prompt wording. */
  datatype Prompt =
    | ExtractDetails(query: string)
    | ProposeUpdate(current: Draft, request: string)
    | NormaliseDate(answer: string)
    | NormaliseTime(answer: string)

  /** What `json.loads` gives: a decoding error, an object, or some other JSON value. */
  datatype Json = Malformed | Object(members: map<string, Value>) | NotObject

  /** The row inserted into the events table. */
  datatype Row = Row(name: Value, date: Value, time: Value, location: Value, details: Value, reminder: string)

  /** The outcome of connecting to the database and inserting a row. */
  datatype DbReply = NoConnection | Inserted(id: int) | DbError(message: string)

  /** The Google Calendar event body; instants are local clock seconds. */
  datatype EventBody = EventBody(summary: Value, location: Value, description: Value, start: int, end: int, reminder: Option<nat>)

  /**
   * The handler's collaborators: the language model (absent when no interface was passed in),
   * the JSON decoder, the database, and the calendar service (absent when it could not be built),
   * whose `insert` reports whether the event was created.
   */
  datatype Env = Env(llm: Option<Prompt -> string>, parseJson: string -> Json, store: Row -> DbReply, calendar: Option<EventBody -> bool>)

  // ---------------------------------------------------------------------------
  // Reminder catalog

  /** The catalog labels in declared order; they are already lower case, so `.lower()` leaves them as they are. */
  const ReminderLabels: seq<string> := ["5 minutes", "10 minutes", "15 minutes", "30 minutes", "1 hour", "2 hours", "1 day"]
  const ReminderMinutes: seq<nat> := [5, 10, 15, 30, 60, 120, 1440]

  /** The minutes of the first catalog label, in declared order, that occurs in `text` ignoring case. */
  function CatalogMatch(text: string): (r: Option<nat>)
    ensures r.Some? <==> exists i :: 0 <= i < |ReminderLabels| && Contains(Lower(text), ReminderLabels[i])
    ensures r.Some? ==> exists i :: 0 <= i < |ReminderLabels| && Contains(Lower(text), ReminderLabels[i])
                          && r.value == ReminderMinutes[i]
                          && forall j :: 0 <= j < i ==> !Contains(Lower(text), ReminderLabels[j])
  {
    match FirstContained(Lower(text), ReminderLabels)
    case None => None
    case Some(i) => Some(ReminderMinutes[i])
  }

  /** The `for option, minutes in reminder_options.items()` lookup with its `break`. */
  method MatchReminder(text: string) returns (minutes: Option<nat>)
    ensures minutes == CatalogMatch(text)
  {
    var t := Lower(text);
    minutes := None;
    for i := 0 to |ReminderLabels|
      invariant minutes.None?
      invariant forall j :: 0 <= j < i ==> !Contains(t, ReminderLabels[j])
    {
      if Contains(t, ReminderLabels[i]) {
        minutes := Some(ReminderMinutes[i]);
        break;
      }
    }
  }

  /** The reminder column: "No reminder", or the matched (default 10) minutes. */
  function StoredReminder(v: Value): string {
    if Truthy(v) && v.text != NoReminder then NatToString(CatalogMatch(v.text).GetOr(10)) + " minutes before"
    else NoReminder
  }

  lemma StoredReminderCases(v: Value)
    ensures StoredReminder(v) == NoReminder <==> !Truthy(v) || v.text == NoReminder
    ensures Truthy(v) && v.text != NoReminder && CatalogMatch(v.text).None? ==> StoredReminder(v) == "10 minutes before"
  {
    if Truthy(v) && v.text != NoReminder {
      assert |StoredReminder(v)| > |NoReminder|;
    }
  }

  /** The catalog is searched in declared order, so the label "5 minutes" wins inside "15 minutes". */
  lemma FifteenMinutesMatchesFive()
    ensures CatalogMatch("15 minutes") == Some(5)
  {
    FifteenMinutesContainsFive();
    assert ReminderLabels[0] == "5 minutes";
    assert FirstContainedFrom("15 minutes", ReminderLabels, 0) == Some(0);
  }

  /** So the row saved for a "15 minutes" answer says five minutes. */
  lemma FifteenMinutesStoredAsFive()
    ensures StoredReminder(Str("15 minutes")) == "5" + " minutes before"
  {
    var v := Str("15 minutes");
    FifteenMinutesMatchesFive();
    assert v.text[0] != NoReminder[0];
    assert StoredReminder(v) == NatToString(5) + " minutes before";
    assert NatToString(5) == [DigitChar(5)] == "5";
  }

  lemma FifteenMinutesContainsFive()
    ensures Lower("15 minutes") == "15 minutes"
    ensures Contains("15 minutes", "5 minutes")
  {
    ContainsAt("15 minutes", "5 minutes", 1);
  }

  // ---------------------------------------------------------------------------
  // Saving and syncing

  function RowOf(d: Draft): Row {
    Row(Get(d, "name"), Get(d, "date"), Get(d, "time"), Get(d, "location"),
        if "details" in d then d["details"] else Str(NoDetails), StoredReminder(Get(d, "reminder")))
  }

  /** The error text `save_event_to_db` returns for a failed save. */
  function DbErrorText(r: DbReply): string {
    match r
    case NoConnection => "Database connection error"
    case DbError(m) => m
    case Inserted(_) => ""
  }

  /** The popup override the calendar body carries: only a matched catalog label, with no default. */
  function ReminderOverride(v: Value): Option<nat> {
    if Truthy(v) && v.text != NoReminder then CatalogMatch(v.text) else None
  }

  /** The calendar body, or `None` when `f"{date} {time}"` does not parse as `%Y-%m-%d %H:%M:%S`. */
  function BuildBody(d: Draft): Option<EventBody> {
    match Clock.ParseDateTime(Render(Get(d, "date")) + " " + Render(Get(d, "time")), ' ')
    case None => None
    case Some(t) =>
      Some(EventBody(Get(d, "name"), Get(d, "location"), if "details" in d then d["details"] else Str(NoDetails),
                     t, t + Clock.SecondsPerHour, ReminderOverride(Get(d, "reminder"))))
  }

  /** Whether `add_to_google_calendar` reports success. */
  function CalendarSync(d: Draft, env: Env): bool {
    match env.calendar
    case None => false
    case Some(insert) =>
      match BuildBody(d)
      case None => false
      case Some(b) => insert(b)
  }

  /**
   * The body lasts one hour; it carries an override exactly when a catalog label matched, and
   * then the override and the stored reminder name the same minutes. Without a match the
   * stored reminder falls back to ten minutes while the body has no override.
   */
  lemma BodyReminderAgreesWithRow(d: Draft, b: EventBody)
    requires BuildBody(d) == Some(b)
    ensures b.end == b.start + 3600
    ensures b.reminder.Some? ==> RowOf(d).reminder == NatToString(b.reminder.value) + " minutes before"
    ensures b.reminder.None? && RowOf(d).reminder != NoReminder ==> RowOf(d).reminder == "10 minutes before"
  {
    var v := Get(d, "reminder");
    assert b.reminder == ReminderOverride(v);
    assert RowOf(d).reminder == StoredReminder(v);
    OverrideAgreesWithStored(v);
  }

  lemma OverrideAgreesWithStored(v: Value)
    ensures ReminderOverride(v).Some? ==> StoredReminder(v) == NatToString(ReminderOverride(v).value) + " minutes before"
    ensures ReminderOverride(v).None? && StoredReminder(v) != NoReminder ==> StoredReminder(v) == "10 minutes before"
  {
    if Truthy(v) && v.text != NoReminder {
      var c := CatalogMatch(v.text);
      assert ReminderOverride(v) == c;
      assert StoredReminder(v) == NatToString(c.GetOr(10)) + " minutes before";
    } else {
      assert ReminderOverride(v).None? && StoredReminder(v) == NoReminder;
    }
  }

  const SyncedClause: string := " It's been synced with Google Calendar as well."

  /** The reply after a successful save, with the sync clause when the calendar accepted the event. */
  function SavedReply(name: string, synced: bool): string {
    "Event '" + (name + "' has been added to your calendar." + (if synced then SyncedClause else ""))
  }

  /** The reply after a failed save. */
  function FailedReply(error: string): string {
    "There was a problem adding your event: " + error
  }

  /** The reply of `_finalize_event`: save first, sync only after a successful save. */
  function FinalizeReply(d: Draft, env: Env): string {
    var reply := env.store(RowOf(d));
    if reply.Inserted? then SavedReply(Render(Get(d, "name")), CalendarSync(d, env))
    else FailedReply(DbErrorText(reply))
  }

  /** When the save fails the calendar is never consulted: any calendar gives the same reply. */
  lemma FinalizeIgnoresCalendarAfterFailedSave(d: Draft, env: Env, other: Option<EventBody -> bool>)
    requires !env.store(RowOf(d)).Inserted?
    ensures FinalizeReply(d, env) == FinalizeReply(d, env.(calendar := other))
    ensures FinalizeReply(d, env) == "There was a problem adding your event: " + DbErrorText(env.store(RowOf(d)))
  {
  }

  /** A successful save always names the event; the sync clause is added exactly when the sync succeeded. */
  lemma FinalizeReplyAfterSave(d: Draft, env: Env)
    requires env.store(RowOf(d)).Inserted?
    ensures var base := "Event '" + Render(Get(d, "name")) + "' has been added to your calendar.";
      FinalizeReply(d, env) == (if CalendarSync(d, env) then base + SyncedClause else base)
    ensures env.calendar.None? || BuildBody(d).None? ==>
      FinalizeReply(d, env) == "Event '" + Render(Get(d, "name")) + "' has been added to your calendar."
  {
  }

  // ---------------------------------------------------------------------------
  // Pure pieces of the dialogue

  const EventPhrases: seq<string> := [
    "add event", "create event", "schedule event", "new event",
    "add to calendar", "put in calendar", "create a reminder",
    "add appointment", "schedule appointment", "new appointment",
    "add meeting", "schedule meeting", "new meeting",
    "add to my calendar", "schedule in my calendar"]

  /** `is_event_query`: one of the fifteen phrases occurs in the lower-cased query. */
  function IsEventQuery(q: string): (r: bool)
    ensures r <==> exists j :: 0 <= j < |EventPhrases| && Contains(Lower(q), EventPhrases[j])
  {
    FirstContained(Lower(q), EventPhrases).Some?
  }

  /** The JSON text inside a model reply: between ```json and the next fence, or after the first fence. */
  function FenceBody(r: string): string {
    if Contains(r, "```json") then Strip(Before(SecondPart(r, "```json"), "```"))
    else if Contains(r, "```") then Strip(SecondPart(r, "```"))
    else r
  }

  lemma UnfencedReplyUnchanged(r: string)
    requires !Contains(r, "```")
    ensures FenceBody(r) == r
  {
    if Contains(r, "```json") {
      assert Contains("```json", "```") by { ContainsAt("```json", "```", 0); }
      ContainsTransitive(r, "```json", "```");
    }
  }

  /** A reply fenced as ```json ... ``` around text without backticks gives that text, stripped. */
  lemma {:induction false} FencedJsonRoundTrip(j: string)
    requires forall i :: 0 <= i < |j| ==> j[i] != '`'
    ensures FenceBody("```json" + j + "```") == Strip(j)
  {
    var open := "```json";
    var close := "```";
    var r := open + j + close;
    assert OccursAt(r, open, 0) by { assert r[0..7] == open; }
    ContainsIff(r, open);
    assert IndexOf(r, open) == Some(0);
    var t := j + close;
    assert After(r, open) == t by { assert r[7..] == t; }
    assert !Contains(t, open) by {
      forall i | 0 <= i && i + |open| <= |t|
        ensures !OccursAt(t, open, i)
      {
        assert t[i..i + |open|][0] == t[i] == j[i];
      }
      ContainsIff(t, open);
    }
    assert SecondPart(r, open) == t;
    assert OccursAt(t, close, |j|) by { assert t[|j|..|j| + 3] == close; }
    ContainsIff(t, close);
    forall i | 0 <= i < |j|
      ensures !OccursAt(t, close, i)
    {
      assert t[i..i + |close|][0] == t[i] == j[i];
    }
    assert IndexOf(t, close) == Some(|j|);
    assert Before(t, close) == j by { assert t[..|j|] == j; }
  }

  const SummaryHeader: string := "Event Summary: Here are the event details:\n"

  /** The confirmation summary listing every field. */
  function Summary(d: Draft): string {
    SummaryHeader
    + ("Name: " + Render(Get(d, "name")) + ".\n"
       + "Date: " + Render(Get(d, "date")) + "\n"
       + "Time: " + Render(Get(d, "time")) + "\n"
       + "Location: " + Render(Get(d, "location")) + ".\n"
       + "Details: " + Render(Get(d, "details")) + "\n"
       + "Reminder: " + Render(Get(d, "reminder")) + "\n"
       + "Are you happy with this event? Please say yes or no.")
  }

  const ConflictsUnparsed: string := "Could not parse date and time for conflict checking"
  const NoConflicts: string := "No conflicts found"

  /**
   * `check_conflicts`: without an end time it needs `f"{date} {start}"` to parse; it never
   * reports a conflict.
   */
  function CheckConflicts(date: Value, start: Value, end: Option<Value>): (r: string)
    ensures r == NoConflicts || r == ConflictsUnparsed
    ensures r == ConflictsUnparsed <==>
      !(end.Some? && Truthy(end.value)) && Clock.ParseDateTime(Render(date) + " " + Render(start), ' ').None?
  {
    if end.Some? && Truthy(end.value) then NoConflicts
    else if Clock.ParseDateTime(Render(date) + " " + Render(start), ' ').None? then ConflictsUnparsed
    else NoConflicts
  }

  // ---------------------------------------------------------------------------
  // Choosing the next question

  const AskName: string := "What's the name of the event?"
  const AskDate: string := "What date is the event? (e.g., March 20, 2025)"
  const AskTime: string := "What time is the event? (e.g., 3:00 PM)"
  const AskLocation: string := "Where is the event located?"
  const AskDetails: string := "Do you want to add any details for the event? If not, just say 'no details'."

  /** The reminder question, listing the catalog labels in declared order. */
  const AskReminder: string :=
    "Would you like a reminder? Options are: 5 minutes, 10 minutes, 15 minutes, 30 minutes, 1 hour, 2 hours, 1 day. Or say 'no reminder'."

  /** Field `f` still needs a question: a required field that is falsy, an optional one still at its default. */
  predicate Pending(d: Draft, f: string) {
    if f == "details" then Get(d, f) == Str(NoDetails)
    else if f == "reminder" then Get(d, f) == Str(NoReminder)
    else !Truthy(Get(d, f))
  }

  /** Independent reference: the index of the first pending field at or after `i`. */
  function FirstPendingFrom(d: Draft, i: nat): (r: Option<nat>)
    ensures r.Some? ==> i <= r.value < |Fields| && Pending(d, Fields[r.value])
                        && forall j :: i <= j < r.value ==> !Pending(d, Fields[j])
    ensures r.None? ==> forall j :: i <= j < |Fields| ==> !Pending(d, Fields[j])
    decreases |Fields| - i
  {
    if i >= |Fields| then None
    else if Pending(d, Fields[i]) then Some(i)
    else FirstPendingFrom(d, i + 1)
  }

  /** The question `_get_next_question` asks, as a function of the session. */
  function NextQuestion(s: Session): (Session, string) {
    var d := s.draft;
    if !Truthy(Get(d, "name")) then (s.(question := Some("name")), AskName)
    else if !Truthy(Get(d, "date")) then (s.(question := Some("date")), AskDate)
    else if !Truthy(Get(d, "time")) then (s.(question := Some("time")), AskTime)
    else if !Truthy(Get(d, "location")) then (s.(question := Some("location")), AskLocation)
    else if Get(d, "details") == Str(NoDetails) then (s.(question := Some("details")), AskDetails)
    else if Get(d, "reminder") == Str(NoReminder) then (s.(question := Some("reminder")), AskReminder)
    else (s.(question := None, awaiting := true), Summary(d))
  }

  /**
   * The next question is about the first pending field in the order name, date, time,
   * location, details, reminder; with nothing pending the session waits for confirmation and
   * the reply is the summary. The draft and the other flags are untouched.
   */
  lemma NextQuestionAsksFirstPending(s: Session)
    ensures NextQuestion(s).0.draft == s.draft
    ensures NextQuestion(s).0.creating == s.creating && NextQuestion(s).0.updating == s.updating
    ensures FirstPendingFrom(s.draft, 0).Some? ==>
      NextQuestion(s).0.question == Some(Fields[FirstPendingFrom(s.draft, 0).value])
      && NextQuestion(s).0.awaiting == s.awaiting
    ensures FirstPendingFrom(s.draft, 0).None? ==>
      NextQuestion(s).0.question.None? && NextQuestion(s).0.awaiting && NextQuestion(s).1 == Summary(s.draft)
  {
    NextQuestionKeepsDraft(s);
    NextQuestionWhenPending(s);
    NextQuestionWhenComplete(s);
  }

  lemma NextQuestionKeepsDraft(s: Session)
    ensures NextQuestion(s).0.draft == s.draft
    ensures NextQuestion(s).0.creating == s.creating && NextQuestion(s).0.updating == s.updating
  {
  }

  lemma NextQuestionWhenPending(s: Session)
    ensures FirstPendingFrom(s.draft, 0).Some? ==>
      NextQuestion(s).0.question == Some(Fields[FirstPendingFrom(s.draft, 0).value])
      && NextQuestion(s).0.awaiting == s.awaiting
  {
    FirstPendingCases(s.draft);
  }

  lemma NextQuestionWhenComplete(s: Session)
    ensures FirstPendingFrom(s.draft, 0).None? ==>
      NextQuestion(s).0.question.None? && NextQuestion(s).0.awaiting && NextQuestion(s).1 == Summary(s.draft)
  {
    FirstPendingCases(s.draft);
  }

  /** The first pending field, read off the draft in the order of `_get_next_question`'s tests. */
  lemma {:induction false} FirstPendingCases(d: Draft)
    ensures FirstPendingFrom(d, 0) ==
      if !Truthy(Get(d, "name")) then Some(0)
      else if !Truthy(Get(d, "date")) then Some(1)
      else if !Truthy(Get(d, "time")) then Some(2)
      else if !Truthy(Get(d, "location")) then Some(3)
      else if Get(d, "details") == Str(NoDetails) then Some(4)
      else if Get(d, "reminder") == Str(NoReminder) then Some(5)
      else None
  {
    assert Fields[0] == "name" && Fields[1] == "date" && Fields[2] == "time";
    assert Fields[3] == "location" && Fields[4] == "details" && Fields[5] == "reminder";
    if Truthy(Get(d, "name")) {
      assert FirstPendingFrom(d, 0) == FirstPendingFrom(d, 1);
      if Truthy(Get(d, "date")) {
        assert FirstPendingFrom(d, 1) == FirstPendingFrom(d, 2);
        if Truthy(Get(d, "time")) {
          assert FirstPendingFrom(d, 2) == FirstPendingFrom(d, 3);
          if Truthy(Get(d, "location")) {
            assert FirstPendingFrom(d, 3) == FirstPendingFrom(d, 4);
            if Get(d, "details") != Str(NoDetails) {
              assert FirstPendingFrom(d, 4) == FirstPendingFrom(d, 5);
              if Get(d, "reminder") != Str(NoReminder) {
                assert FirstPendingFrom(d, 5) == FirstPendingFrom(d, 6);
              }
            }
          }
        }
      }
    }
  }

  // ---------------------------------------------------------------------------
  // One turn of process_query

  /** A turn either returns a reply (`None` when the query is not about events) or raises. */
  datatype Outcome = Returned(reply: Option<string>) | Raised

  function Said(m: string): Outcome {
    Returned(Some(m))
  }

  const AskChanges: string := "What details would you like to change?"
  const ConfirmRetry: string := "Please say yes to confirm or no to modify the event details."
  const UpdateRetry: string := "I didn't understand which details you want to change. Please specify more clearly, like 'change the date to March 21st'."
  const DateRetry: string := "I couldn't understand that date. Please provide a date like 'March 20, 2025' or '2025-03-20'."
  const TimeRetry: string := "I couldn't understand that time. Please provide a time like '3:00 PM' or '15:00'."
  const Lost: string := "I'm having trouble processing your request. " + "Let's try again. What event would you like to add to your calendar?"

  /** What `extract_event_details` hands back: the decoded members, or a value whose `.items()` raises. */
  datatype Extraction = Details(members: map<string, Value>) | NotADict

  function Extract(q: string, env: Env): Extraction {
    match env.llm
    case None => Details(map[])
    case Some(llm) =>
      match env.parseJson(FenceBody(Strip(llm(ExtractDetails(q)))))
      case Malformed => Details(map[])
      case Object(m) => Details(m)
      case NotObject => NotADict
  }

  /** The initial extraction: every truthy extracted value is copied into the draft, new keys included. */
  function MergeTruthy(d: Draft, m: map<string, Value>): (r: Draft)
    ensures forall k :: k in r <==> k in d || (k in m && Truthy(m[k]))
    ensures forall k :: k in r ==> r[k] == if k in m && Truthy(m[k]) then m[k] else d[k]
  {
    map k | k in d.Keys + m.Keys && (k in d || Truthy(m[k])) :: if k in m && Truthy(m[k]) then m[k] else d[k]
  }

  /** A draft that agrees with `MergeTruthy(d0, m)` key by key is that draft. */
  lemma MergeTruthyIsPointwise(d: Draft, d0: Draft, m: map<string, Value>)
    requires forall k :: k in d <==> k in d0 || (k in m && Truthy(m[k]))
    requires forall k :: k in d ==> d[k] == if k in m && Truthy(m[k]) then m[k] else d0[k]
    ensures d == MergeTruthy(d0, m)
  {
    var r := MergeTruthy(d0, m);
    assert d.Keys == r.Keys;
  }

  /** An update request: only keys the draft already has are written, with whatever value came back. */
  function ApplyKnown(d: Draft, m: map<string, Value>): (r: Draft)
    ensures r.Keys == d.Keys
    ensures forall k :: k in r ==> r[k] == (if k in m then m[k] else d[k])
  {
    map k | k in d :: if k in m then m[k] else d[k]
  }

  /** An idle handler: only an event query starts a dialogue. */
  function IdleStep(s: Session, q: string, env: Env): (Session, Outcome) {
    if !IsEventQuery(q) then (s, Returned(None))
    else
      match Extract(q, env)
      case NotADict => (s, Raised)
      case Details(m) =>
        var n := NextQuestion(s.(draft := MergeTruthy(s.draft, m), creating := true));
        (n.0, Said(n.1))
  }

  /** Waiting for confirmation: "yes" is looked for before "no". */
  function ConfirmStep(s: Session, q: string, env: Env): (Session, Outcome) {
    if Contains(Lower(q), "yes") then (Fresh, Said(FinalizeReply(s.draft, env)))
    else if Contains(Lower(q), "no") then (s.(awaiting := false, updating := true), Said(AskChanges))
    else (s, Said(ConfirmRetry))
  }

  /** Waiting for an update request. */
  function UpdateStep(s: Session, q: string, env: Env): (Session, Outcome) {
    match env.llm
    case None => (s, Raised)
    case Some(llm) =>
      match env.parseJson(FenceBody(llm(ProposeUpdate(s.draft, q))))
      case Object(m) =>
        var d := ApplyKnown(s.draft, m);
        (s.(draft := d, updating := false, awaiting := true), Said(Summary(d)))
      case _ => (s, Said(UpdateRetry))
  }

  /** The answer to the pending question about `field`. */
  function AnswerStep(s: Session, field: string, q: string, env: Env): (Session, Outcome) {
    if field == "date" then
      match env.llm
      case None => (s, Raised)
      case Some(llm) =>
        var e := Strip(llm(NormaliseDate(q)));
        if e != [] && |e| == 10 then
          var n := NextQuestion(s.(draft := s.draft["date" := Str(e)])); (n.0, Said(n.1))
        else (s, Said(DateRetry))
    else if field == "time" then
      match env.llm
      case None => (s, Raised)
      case Some(llm) =>
        var e := Strip(llm(NormaliseTime(q)));
        if e != [] then
          var n := NextQuestion(s.(draft := s.draft["time" := Str(e)])); (n.0, Said(n.1))
        else (s, Said(TimeRetry))
    else
      var n := NextQuestion(s.(draft := s.draft[field := Str(q)])); (n.0, Said(n.1))
  }

  /** One call of `process_query(q)` on session `s`: the new session and the outcome. */
  function Step(s: Session, q: string, env: Env): (Session, Outcome) {
    if !s.creating && !s.updating then IdleStep(s, q, env)
    else if s.awaiting then ConfirmStep(s, q, env)
    else if s.updating then UpdateStep(s, q, env)
    else if s.question.Some? && s.question.value != "" && s.question.value in s.draft then
      AnswerStep(s, s.question.value, q, env)
    else (s, Said(Lost))
  }

  // ---------------------------------------------------------------------------
  // Properties of a turn

  lemma NextQuestionKeepsInv(s: Session)
    requires HasFields(s.draft) && s.creating && !s.updating && !s.awaiting
    ensures Inv(NextQuestion(s).0)
  {
    NextQuestionAsksFirstPending(s);
  }

  lemma IdleStepKeepsInv(s: Session, q: string, env: Env)
    requires Inv(s) && !s.creating
    ensures Inv(IdleStep(s, q, env).0)
  {
    if IsEventQuery(q) && Extract(q, env).Details? {
      var m := Extract(q, env).members;
      NextQuestionKeepsInv(s.(draft := MergeTruthy(s.draft, m), creating := true));
    }
  }

  lemma UpdateStepKeepsInv(s: Session, q: string, env: Env)
    requires Inv(s) && s.creating && s.updating
    ensures Inv(UpdateStep(s, q, env).0)
  {
  }

  lemma AnswerStepKeepsInv(s: Session, q: string, env: Env)
    requires Inv(s) && s.creating && !s.updating && !s.awaiting && s.question.Some? && s.question.value in s.draft
    ensures Inv(AnswerStep(s, s.question.value, q, env).0)
  {
    var field := s.question.value;
    if field == "date" && env.llm.Some? {
      var e := Strip(env.llm.value(NormaliseDate(q)));
      if e != [] && |e| == 10 {
        NextQuestionKeepsInv(s.(draft := s.draft["date" := Str(e)]));
      }
    } else if field == "time" && env.llm.Some? {
      var e := Strip(env.llm.value(NormaliseTime(q)));
      if e != [] {
        NextQuestionKeepsInv(s.(draft := s.draft["time" := Str(e)]));
      }
    } else if field != "date" && field != "time" {
      NextQuestionKeepsInv(s.(draft := s.draft[field := Str(q)]));
    }
  }

  /** Every turn keeps the dialogue in a reachable state. */
  lemma StepKeepsInv(s: Session, q: string, env: Env)
    requires Inv(s)
    ensures Inv(Step(s, q, env).0)
  {
    if !s.creating && !s.updating {
      IdleStepKeepsInv(s, q, env);
    } else if s.awaiting {
    } else if s.updating {
      UpdateStepKeepsInv(s, q, env);
    } else {
      assert s.question.value in s.draft;
      AnswerStepKeepsInv(s, q, env);
    }
  }

  lemma LostOpensWithI()
    ensures Lost[0] == 'I'
  {
    var opening := "I'm having trouble processing your request. ";
    assert Lost == opening + "Let's try again. What event would you like to add to your calendar?";
    assert Lost[0] == opening[0];
  }

  lemma SummaryIsNotFallback(d: Draft)
    ensures Summary(d) != Lost
  {
    LostOpensWithI();
    assert Summary(d)[0] == SummaryHeader[0] == 'E';
  }

  lemma NextQuestionIsNotFallback(s: Session)
    ensures NextQuestion(s).1 != Lost
  {
    SummaryIsNotFallback(s.draft);
  }

  lemma FinalizeReplyIsNotFallback(d: Draft, env: Env)
    ensures FinalizeReply(d, env) != Lost
  {
    LostOpensWithI();
    var reply := FinalizeReply(d, env);
    if env.store(RowOf(d)).Inserted? {
      assert reply[0] == 'E';
    } else {
      assert reply[0] == 'T';
    }
  }

  lemma ConfirmStepIsNotFallback(s: Session, q: string, env: Env)
    ensures ConfirmStep(s, q, env).1 != Said(Lost)
  {
    FinalizeReplyIsNotFallback(s.draft, env);
  }

  lemma UpdateStepIsNotFallback(s: Session, q: string, env: Env)
    ensures UpdateStep(s, q, env).1 != Said(Lost)
  {
    if env.llm.Some? {
      var json := env.parseJson(FenceBody(env.llm.value(ProposeUpdate(s.draft, q))));
      if json.Object? {
        SummaryIsNotFallback(ApplyKnown(s.draft, json.members));
      }
    }
  }

  lemma AnswerStepIsNotFallback(s: Session, field: string, q: string, env: Env)
    ensures AnswerStep(s, field, q, env).1 != Said(Lost)
  {
    if field == "date" {
      if env.llm.Some? {
        NextQuestionIsNotFallback(s.(draft := s.draft["date" := Str(Strip(env.llm.value(NormaliseDate(q))))]));
      }
    } else if field == "time" {
      if env.llm.Some? {
        NextQuestionIsNotFallback(s.(draft := s.draft["time" := Str(Strip(env.llm.value(NormaliseTime(q))))]));
      }
    } else {
      NextQuestionIsNotFallback(s.(draft := s.draft[field := Str(q)]));
    }
  }

  /** In a reachable state the "I'm having trouble" fallback is never the reply. */
  lemma NoFallbackInReachableStates(s: Session, q: string, env: Env)
    requires Inv(s)
    ensures Step(s, q, env).1 != Said(Lost)
  {
    if !s.creating && !s.updating {
      if IsEventQuery(q) && Extract(q, env).Details? {
        NextQuestionIsNotFallback(s.(draft := MergeTruthy(s.draft, Extract(q, env).members), creating := true));
      }
    } else if s.awaiting {
      ConfirmStepIsNotFallback(s, q, env);
    } else if s.updating {
      UpdateStepIsNotFallback(s, q, env);
    } else {
      var field := s.question.value;
      assert field in s.draft && field != "";
      AnswerStepIsNotFallback(s, field, q, env);
    }
  }

  /** An idle handler answers `None` and stays as it is exactly when the query names no event phrase. */
  lemma IdleIgnoresOtherQueries(s: Session, q: string, env: Env)
    requires !s.creating && !s.updating
    ensures Step(s, q, env) == (s, Returned(None)) <==> !IsEventQuery(q)
  {
  }

  /**
   * An event query on an idle handler copies the truthy extracted values into the draft,
   * starts creating, and asks about the first pending field of the merged draft.
   */
  lemma IdleEventQueryStartsCreation(s: Session, q: string, env: Env, m: map<string, Value>)
    requires Inv(s) && !s.creating && IsEventQuery(q) && Extract(q, env) == Details(m)
    ensures var (n, _) := Step(s, q, env);
      n.draft == MergeTruthy(FreshDraft, m) && n.creating && !n.updating
      && n.question == (match FirstPendingFrom(n.draft, 0) case Some(i) => Some(Fields[i]) case None => None)
  {
    NextQuestionAsksFirstPending(s.(draft := MergeTruthy(s.draft, m), creating := true));
  }

  /** "yes" is looked for before "no"; "yes" commits and resets, "no" opens an update, anything else re-prompts. */
  lemma ConfirmationReplies(s: Session, q: string, env: Env)
    requires Inv(s) && s.awaiting
    ensures Contains(Lower(q), "yes") ==> Step(s, q, env) == (Fresh, Said(FinalizeReply(s.draft, env)))
    ensures !Contains(Lower(q), "yes") && Contains(Lower(q), "no") ==>
      Step(s, q, env) == (s.(awaiting := false, updating := true), Said(AskChanges)) && Inv(Step(s, q, env).0)
    ensures !Contains(Lower(q), "yes") && !Contains(Lower(q), "no") ==> Step(s, q, env) == (s, Said(ConfirmRetry))
  {
  }

  /** Confirming twice commits once: the second "yes" finds an idle handler and is not an event query. */
  lemma SecondYesIsIgnored(s: Session, env: Env)
    requires Inv(s) && s.awaiting
    ensures Step(s, "yes", env).0 == Fresh
    ensures Step(Fresh, "yes", env) == (Fresh, Returned(None))
  {
    assert Lower("yes") == "yes";
    ContainsItself("yes");
    ShortQueryIsNoEventQuery("yes");
  }

  /** Every event phrase has at least nine characters, so a shorter query never starts a dialogue. */
  lemma ShortQueryIsNoEventQuery(q: string)
    requires |q| < 9
    ensures !IsEventQuery(q)
  {
    EventPhrasesAreLong();
    assert FirstContained(Lower(q), EventPhrases).None?;
  }

  lemma EventPhrasesAreLong()
    ensures forall j :: 0 <= j < |EventPhrases| ==> |EventPhrases[j]| >= 9
  {
  }

  /**
   * An update request writes only keys the draft already has and then asks for confirmation;
   * a reply that is not a JSON object leaves everything as it was.
   */
  lemma UpdateTurn(s: Session, q: string, env: Env)
    requires Inv(s) && s.updating && env.llm.Some?
    ensures var (n, o) := Step(s, q, env);
      n.draft.Keys == s.draft.Keys && n.question.None? && n.creating
    ensures var (n, o) := Step(s, q, env);
      match env.parseJson(FenceBody(env.llm.value(ProposeUpdate(s.draft, q))))
      case Object(m) => n.draft == ApplyKnown(s.draft, m) && n.awaiting && !n.updating && o == Said(Summary(n.draft))
      case _ => n == s && o == Said(UpdateRetry)
  {
  }

  /** With a question pending, a turn is the answer step for that question's field. */
  lemma StepAnswers(s: Session, q: string, env: Env)
    requires Inv(s) && s.creating && s.question.Some?
    ensures Step(s, q, env) == AnswerStep(s, s.question.value, q, env)
  {
    assert s.question.value in s.draft && s.question.value != "";
  }

  /**
   * A date answer is kept only when the normalised reply has exactly ten characters, and the
   * date is then not asked again; otherwise the question stays open and nothing changes.
   */
  lemma DateAnswerTurn(s: Session, q: string, env: Env)
    requires Inv(s) && s.creating && s.question == Some("date") && env.llm.Some?
    ensures var e := Strip(env.llm.value(NormaliseDate(q)));
      if |e| == 10 then
        Step(s, q, env).0.draft == s.draft["date" := Str(e)] && Step(s, q, env).0.question != Some("date")
        && Step(s, q, env).1.Returned?
      else Step(s, q, env) == (s, Said(DateRetry))
  {
    StepAnswers(s, q, env);
    var e := Strip(env.llm.value(NormaliseDate(q)));
    if |e| == 10 {
      var s1 := s.(draft := s.draft["date" := Str(e)]);
      var n := NextQuestion(s1);
      assert Step(s, q, env) == (n.0, Said(n.1));
      NextQuestionAsksFirstPending(s1);
      assert !Pending(s1.draft, "date");
    } else {
      assert Step(s, q, env) == (s, Said(DateRetry));
    }
  }

  /** A time answer is kept when the normalised reply is non-empty, and is then not asked again. */
  lemma TimeAnswerTurn(s: Session, q: string, env: Env)
    requires Inv(s) && s.creating && s.question == Some("time") && env.llm.Some?
    ensures var e := Strip(env.llm.value(NormaliseTime(q)));
      if e != [] then
        Step(s, q, env).0.draft == s.draft["time" := Str(e)] && Step(s, q, env).0.question != Some("time")
        && Step(s, q, env).1.Returned?
      else Step(s, q, env) == (s, Said(TimeRetry))
  {
    StepAnswers(s, q, env);
    var e := Strip(env.llm.value(NormaliseTime(q)));
    if e != [] {
      var s1 := s.(draft := s.draft["time" := Str(e)]);
      var n := NextQuestion(s1);
      assert Step(s, q, env) == (n.0, Said(n.1));
      NextQuestionAsksFirstPending(s1);
      assert !Pending(s1.draft, "time");
    } else {
      assert Step(s, q, env) == (s, Said(TimeRetry));
    }
  }

  /** Any other pending field takes the raw answer, even an empty one, which leaves it pending. */
  lemma PlainAnswerTurn(s: Session, q: string, env: Env)
    requires Inv(s) && s.creating && s.question.Some? && s.question.value != "date" && s.question.value != "time"
    ensures Step(s, q, env).0.draft == s.draft[s.question.value := Str(q)]
    ensures Step(s, q, env).1.Returned?
  {
    var f := s.question.value;
    StepAnswers(s, q, env);
    NextQuestionAsksFirstPending(s.(draft := s.draft[f := Str(q)]));
  }

  /** With the model absent, the update, date and time branches raise and leave the session as it was. */
  lemma MissingModelRaises(s: Session, q: string, env: Env)
    requires Inv(s) && s.creating && !s.awaiting && env.llm.None?
    requires s.updating || s.question == Some("date") || s.question == Some("time")
    ensures Step(s, q, env) == (s, Raised)
  {
  }

  /** Python truthiness of what `process_query` returned. */
  predicate Spoke(o: Outcome) {
    o.Returned? && o.reply.Some? && o.reply.value != ""
  }

  lemma NextQuestionSpeaks(s: Session)
    ensures NextQuestion(s).1 != ""
  {
    SummaryIsNotFallback(s.draft);
    assert |AskName| > 0 && |AskDate| > 0 && |AskTime| > 0 && |AskLocation| > 0 && |AskDetails| > 0 && |AskReminder| > 0;
  }

  lemma ConfirmStepSpeaks(s: Session, q: string, env: Env)
    ensures Spoke(ConfirmStep(s, q, env).1)
  {
    FinalizeReplyIsNotFallback(s.draft, env);
    assert |AskChanges| > 0 && |ConfirmRetry| > 0;
  }

  lemma UpdateStepSpeaks(s: Session, q: string, env: Env)
    ensures UpdateStep(s, q, env).1.Raised? || Spoke(UpdateStep(s, q, env).1)
  {
    if env.llm.Some? {
      var json := env.parseJson(FenceBody(env.llm.value(ProposeUpdate(s.draft, q))));
      if json.Object? {
        SummaryIsNotFallback(ApplyKnown(s.draft, json.members));
      } else {
        assert |UpdateRetry| > 0;
      }
    }
  }

  lemma AnswerStepSpeaks(s: Session, f: string, q: string, env: Env)
    ensures AnswerStep(s, f, q, env).1.Raised? || Spoke(AnswerStep(s, f, q, env).1)
  {
    if f == "date" && env.llm.Some? {
      NextQuestionSpeaks(s.(draft := s.draft["date" := Str(Strip(env.llm.value(NormaliseDate(q))))]));
      assert |DateRetry| > 0;
    } else if f == "time" && env.llm.Some? {
      NextQuestionSpeaks(s.(draft := s.draft["time" := Str(Strip(env.llm.value(NormaliseTime(q))))]));
      assert |TimeRetry| > 0;
    } else if f != "date" && f != "time" {
      NextQuestionSpeaks(s.(draft := s.draft[f := Str(q)]));
    }
  }

  /**
   * During a dialogue every turn either raises or answers with some text, so the assistant
   * never passes an active dialogue's turn on to another handler.
   */
  lemma ActiveStepSpeaks(s: Session, q: string, env: Env)
    requires Inv(s) && s.creating
    ensures Step(s, q, env).1.Raised? || Spoke(Step(s, q, env).1)
  {
    if s.awaiting {
      ConfirmStepSpeaks(s, q, env);
    } else if s.updating {
      UpdateStepSpeaks(s, q, env);
    } else {
      StepAnswers(s, q, env);
      AnswerStepSpeaks(s, s.question.value, q, env);
    }
  }

  /** A turn that raises leaves the session as it was. */
  lemma RaisedKeepsSession(s: Session, q: string, env: Env)
    ensures Step(s, q, env).1.Raised? ==> Step(s, q, env).0 == s
  {
  }

  /** With no dialogue, a turn either starts one with a spoken question or leaves the session as it was. */
  lemma IdleStepStarts(s: Session, q: string, env: Env)
    ensures Spoke(IdleStep(s, q, env).1) ==> IdleStep(s, q, env).0.creating
    ensures !Spoke(IdleStep(s, q, env).1) ==> IdleStep(s, q, env).0 == s
    ensures !IsEventQuery(q) ==> IdleStep(s, q, env) == (s, Returned(None))
  {
    if IsEventQuery(q) && Extract(q, env).Details? {
      var s1 := s.(draft := MergeTruthy(s.draft, Extract(q, env).members), creating := true);
      NextQuestionCreating(s1);
      NextQuestionSpeaks(s1);
    }
  }

  lemma NextQuestionCreating(s: Session)
    ensures NextQuestion(s).0.creating == s.creating
  {
  }

  // ---------------------------------------------------------------------------
  // The handler object

  class EventHandler {
    var currentEvent: Draft
    var isCreatingEvent: bool
    var isUpdatingEvent: bool
    var currentQuestion: Option<string>
    var awaitingConfirmation: bool
    const env: Env

    function State(): Session
      reads this
    {
      Session(currentEvent, isCreatingEvent, isUpdatingEvent, currentQuestion, awaitingConfirmation)
    }

    /** A new handler holds the fresh draft with every mode flag off. */
    constructor (env: Env)
      ensures State() == Fresh && this.env == env
    {
      this.env := env;
      currentEvent := FreshDraft;
      isCreatingEvent := false;
      isUpdatingEvent := false;
      currentQuestion := None;
      awaitingConfirmation := false;
    }

    /** `save_event_to_db`: converts the reminder and hands the row to the database. */
    method SaveEventToDb(event: Draft) returns (reply: DbReply)
      ensures reply == env.store(RowOf(event))
    {
      var reminderMinutes: Option<nat> := None;
      var reminderText := Get(event, "reminder");
      if Truthy(reminderText) && reminderText.text != NoReminder {
        reminderMinutes := MatchReminder(reminderText.text);
        if reminderMinutes.None? {
          reminderMinutes := Some(10);
        }
      }
      var details := if "details" in event then event["details"] else Str(NoDetails);
      var stored := if reminderMinutes.Some? then NatToString(reminderMinutes.value) + " minutes before" else NoReminder;
      reply := env.store(Row(Get(event, "name"), Get(event, "date"), Get(event, "time"), Get(event, "location"), details, stored));
    }

    /** `add_to_google_calendar`: builds the body and inserts it, reporting success. */
    method AddToGoogleCalendar(event: Draft) returns (ok: bool)
      ensures ok == CalendarSync(event, env)
    {
      if env.calendar.None? {
        return false;
      }
      var start := Clock.ParseDateTime(Render(Get(event, "date")) + " " + Render(Get(event, "time")), ' ');
      if start.None? {
        return false;
      }
      var reminder: Option<nat> := None;
      var reminderText := Get(event, "reminder");
      if Truthy(reminderText) && reminderText.text != NoReminder {
        reminder := MatchReminder(reminderText.text);
      }
      var details := if "details" in event then event["details"] else Str(NoDetails);
      var body := EventBody(Get(event, "name"), Get(event, "location"), details,
                            start.value, start.value + Clock.SecondsPerHour, reminder);
      assert reminder == ReminderOverride(reminderText);
      assert BuildBody(event) == Some(body);
      ok := env.calendar.value(body);
    }

    /** `_get_next_question`. */
    method GetNextQuestion() returns (reply: string)
      modifies this
      ensures (State(), reply) == NextQuestion(old(State()))
    {
      if !Truthy(Get(currentEvent, "name")) {
        currentQuestion := Some("name");
        return AskName;
      }
      if !Truthy(Get(currentEvent, "date")) {
        currentQuestion := Some("date");
        return AskDate;
      }
      if !Truthy(Get(currentEvent, "time")) {
        currentQuestion := Some("time");
        return AskTime;
      }
      if !Truthy(Get(currentEvent, "location")) {
        currentQuestion := Some("location");
        return AskLocation;
      }
      if Get(currentEvent, "details") == Str(NoDetails) {
        currentQuestion := Some("details");
        return AskDetails;
      }
      if Get(currentEvent, "reminder") == Str(NoReminder) {
        currentQuestion := Some("reminder");
        return AskReminder;
      }
      currentQuestion := None;
      awaitingConfirmation := true;
      return Summary(currentEvent);
    }

    /** `_finalize_event`: save, sync after a successful save, then reset whatever happened. */
    method FinalizeEvent() returns (reply: string)
      modifies this
      ensures State() == Fresh
      ensures reply == FinalizeReply(old(currentEvent), env)
    {
      var saved := SaveEventToDb(currentEvent);
      var synced := false;
      if saved.Inserted? && env.calendar.Some? {
        synced := AddToGoogleCalendar(currentEvent);
      }
      if saved.Inserted? {
        reply := SavedReply(Render(Get(currentEvent, "name")), synced);
      } else {
        reply := FailedReply(DbErrorText(saved));
      }
      isCreatingEvent := false;
      isUpdatingEvent := false;
      awaitingConfirmation := false;
      currentQuestion := None;
      currentEvent := FreshDraft;
    }

    /** The loop copying every truthy extracted value into the draft. */
    method MergeExtracted(m: map<string, Value>)
      modifies this
      ensures currentEvent == MergeTruthy(old(currentEvent), m)
      ensures isCreatingEvent == old(isCreatingEvent) && isUpdatingEvent == old(isUpdatingEvent)
      ensures currentQuestion == old(currentQuestion) && awaitingConfirmation == old(awaitingConfirmation)
    {
      var d0 := currentEvent;
      var d := d0;
      var todo := m.Keys;
      while todo != {}
        invariant todo <= m.Keys
        invariant forall k :: k in d <==> k in d0 || (k in m && k !in todo && Truthy(m[k]))
        invariant forall k :: k in d ==> d[k] == if k in m && k !in todo && Truthy(m[k]) then m[k] else d0[k]
        decreases |todo|
      {
        var key :| key in todo;
        if Truthy(m[key]) {
          d := d[key := m[key]];
        }
        todo := todo - {key};
      }
      MergeTruthyIsPointwise(d, d0, m);
      currentEvent := d;
    }

    /** The loop writing each proposed update whose field the draft already has. */
    method ApplyUpdates(m: map<string, Value>)
      modifies this
      ensures currentEvent == ApplyKnown(old(currentEvent), m)
      ensures isCreatingEvent == old(isCreatingEvent) && isUpdatingEvent == old(isUpdatingEvent)
      ensures currentQuestion == old(currentQuestion) && awaitingConfirmation == old(awaitingConfirmation)
    {
      var todo := m.Keys;
      while todo != {}
        invariant todo <= m.Keys
        invariant currentEvent.Keys == old(currentEvent).Keys
        invariant forall k :: k in currentEvent ==> currentEvent[k] == if k in m && k !in todo then m[k] else old(currentEvent)[k]
        invariant isCreatingEvent == old(isCreatingEvent) && isUpdatingEvent == old(isUpdatingEvent)
        invariant currentQuestion == old(currentQuestion) && awaitingConfirmation == old(awaitingConfirmation)
        decreases |todo|
      {
        var field :| field in todo;
        if field in currentEvent {
          currentEvent := currentEvent[field := m[field]];
        }
        todo := todo - {field};
      }
    }

    /** The update branch of `process_query`: ask the model for changes and apply them. */
    method HandleUpdate(query: string) returns (outcome: Outcome)
      modifies this
      ensures (State(), outcome) == UpdateStep(old(State()), query, env)
    {
      if env.llm.None? {
        return Raised;
      }
      var response := env.llm.value(ProposeUpdate(currentEvent, query));
      var updates := env.parseJson(FenceBody(response));
      if !updates.Object? {
        return Said(UpdateRetry);
      }
      ApplyUpdates(updates.members);
      isUpdatingEvent := false;
      awaitingConfirmation := true;
      return Said(Summary(currentEvent));
    }

    /** The answer branch of `process_query`: store the answer to the pending question and ask the next one. */
    method AnswerQuestion(field: string, query: string) returns (outcome: Outcome)
      modifies this
      ensures (State(), outcome) == AnswerStep(old(State()), field, query, env)
    {
      if field == "date" {
        if env.llm.None? {
          return Raised;
        }
        var extractedDate := Strip(env.llm.value(NormaliseDate(query)));
        if extractedDate != [] && |extractedDate| == 10 {
          currentEvent := currentEvent["date" := Str(extractedDate)];
        } else {
          return Said(DateRetry);
        }
      } else if field == "time" {
        if env.llm.None? {
          return Raised;
        }
        var extractedTime := Strip(env.llm.value(NormaliseTime(query)));
        if extractedTime != [] {
          currentEvent := currentEvent["time" := Str(extractedTime)];
        } else {
          return Said(TimeRetry);
        }
      } else {
        currentEvent := currentEvent[field := Str(query)];
      }
      var reply := GetNextQuestion();
      return Said(reply);
    }

    /** `process_query`: one turn of the dialogue. */
    method ProcessQuery(query: string) returns (outcome: Outcome)
      modifies this
      ensures (State(), outcome) == Step(old(State()), query, env)
    {
      if !isCreatingEvent && !isUpdatingEvent {
        if !IsEventQuery(query) {
          return Returned(None);
        }
        var extracted := Extract(query, env);
        if extracted.NotADict? {
          return Raised;
        }
        MergeExtracted(extracted.members);
        isCreatingEvent := true;
        var reply := GetNextQuestion();
        return Said(reply);
      }

      if awaitingConfirmation {
        if Contains(Lower(query), "yes") {
          var reply := FinalizeEvent();
          return Said(reply);
        } else if Contains(Lower(query), "no") {
          awaitingConfirmation := false;
          isUpdatingEvent := true;
          return Said(AskChanges);
        } else {
          return Said(ConfirmRetry);
        }
      }

      if isUpdatingEvent {
        outcome := HandleUpdate(query);
        return;
      }

      if currentQuestion.Some? && currentQuestion.value != "" {
        var field := currentQuestion.value;
        if field in currentEvent {
          outcome := AnswerQuestion(field, query);
          return;
        }
      }

      return Said(Lost);
    }
  }
}
