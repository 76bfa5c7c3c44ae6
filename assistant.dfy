/**
 * `PersonalAssistant.process_user_input`: one spoken turn is offered to the event dialogue
 * first, then to the calendar-event detector, the weather handler, the location handler and
 * finally the language model; whatever answers is spoken. The assistant keeps its own
 * `in_event_creation` flag beside the event handler's mode flags.
 *
 * Speech output is the list of texts sent to text-to-speech; the conversation log, the
 * transcription thread and the language model's internals are outside the model (the model is
 * an oracle from the input to its reply).
 */
module Assistant {
  import opened Wrappers
  import opened Text
  import Events
  import Weather
  import Location

  const LocationKeywords: seq<string> :=
    ["where", "location", "nearby", "directions", "how to get", "find", "restaurant", "shop", "store"]

  const Apology: string := "I'm sorry, I encountered an error. Please try again."

  /** `any(keyword in user_input.lower() for keyword in location_keywords)`. */
  predicate IsLocationQuery(input: string) {
    ContainsAny(Lower(input), LocationKeywords)
  }

  /** Who answered a turn. */
  datatype Handler = Dialogue | NewEvent | WeatherReport | Places | LanguageModel | Failure

  /** The outcome of a turn: the assistant's flag, the event handler's session, the spoken text and who produced it. */
  datatype Turn = Turn(flag: bool, session: Events.Session, reply: string, handler: Handler)

  /** The collaborators a turn consults besides the event handler. */
  datatype Helpers = Helpers(weather: Weather.Sources, places: Location.Services, llm: string -> string)

  /** What each of the later handlers would answer to the input; they change no state. */
  datatype Answers = Answers(weather: string, places: string, llm: string)

  /** The weather handler is called without a date extractor. */
  function AnswersFor(input: string, h: Helpers): Answers {
    Answers(Weather.WeatherReply(input, h.weather.(dateExtractor := None)), Location.LocationReply(input, h.places), h.llm(input))
  }

  /** The handlers after the event detector, in priority order. */
  function OtherReply(input: string, a: Answers): (r: (string, Handler))
    ensures r.1 == WeatherReport <==> Weather.IsWeatherQuery(input)
    ensures r.1 == Places <==> !Weather.IsWeatherQuery(input) && IsLocationQuery(input)
    ensures r.1 == LanguageModel <==> !Weather.IsWeatherQuery(input) && !IsLocationQuery(input)
    ensures r.0 == (if r.1 == WeatherReport then a.weather else if r.1 == Places then a.places else a.llm)
  {
    if Weather.IsWeatherQuery(input) then (a.weather, WeatherReport)
    else if IsLocationQuery(input) then (a.places, Places)
    else (a.llm, LanguageModel)
  }

  /** The second part of a turn: `process_query` asked whether the input starts an event, then the other handlers. */
  function DetectorTurn(flag: bool, s: Events.Session, input: string, env: Events.Env, a: Answers): Turn {
    var (s2, o2) := Events.Step(s, input, env);
    if o2.Raised? then Turn(flag, s2, Apology, Failure)
    else if Events.Spoke(o2) then Turn(true, s2, o2.reply.value, NewEvent)
    else Turn(flag, s2, OtherReply(input, a).0, OtherReply(input, a).1)
  }

  /** Whether the turn is first offered to the event dialogue. */
  predicate InDialogue(flag: bool, s: Events.Session) {
    flag || s.creating || s.updating || s.awaiting
  }

  /** One call of `process_user_input`. */
  function Respond(flag: bool, s: Events.Session, input: string, env: Events.Env, a: Answers): Turn {
    if InDialogue(flag, s) then
      var (s1, o1) := Events.Step(s, input, env);
      if o1.Raised? then Turn(flag, s1, Apology, Failure)
      else if Events.Spoke(o1) then Turn(s1.creating || s1.updating || s1.awaiting, s1, o1.reply.value, Dialogue)
      else DetectorTurn(flag, s1, input, env, a)
    else DetectorTurn(flag, s, input, env, a)
  }

  /**
   * During a dialogue the event handler answers the turn (or it fails with the apology), and the
   * flag afterwards says whether the dialogue goes on.
   */
  lemma DialogueKeepsTheTurn(flag: bool, s: Events.Session, input: string, env: Events.Env, a: Answers)
    requires Events.Inv(s) && s.creating
    ensures var (s1, o1) := Events.Step(s, input, env);
      if o1.Raised? then Respond(flag, s, input, env, a) == Turn(flag, s, Apology, Failure)
      else Events.Spoke(o1) && Respond(flag, s, input, env, a) == Turn(s1.creating, s1, o1.reply.value, Dialogue)
  {
    Events.ActiveStepSpeaks(s, input, env);
    Events.StepKeepsInv(s, input, env);
    Events.RaisedKeepsSession(s, input, env);
  }

  /**
   * With no dialogue and a clear flag, an input that is not an event query leaves the event
   * handler as it was and is answered by the weather handler, the location handler or the
   * language model, in that order.
   */
  lemma IdleRouting(s: Events.Session, input: string, env: Events.Env, a: Answers)
    requires Events.Inv(s) && !s.creating && !Events.IsEventQuery(input)
    ensures Respond(false, s, input, env, a) == Turn(false, s, OtherReply(input, a).0, OtherReply(input, a).1)
  {
    assert Events.Step(s, input, env) == Events.IdleStep(s, input, env);
    Events.IdleStepStarts(s, input, env);
  }

  /** With no dialogue, the turn either starts one (and sets the flag) or leaves the session alone. */
  lemma IdleTurn(s: Events.Session, input: string, env: Events.Env, a: Answers)
    requires Events.Inv(s) && !s.creating
    ensures var t := Respond(false, s, input, env, a);
      t.flag == t.session.creating && (t.handler == NewEvent <==> t.flag) && (!t.flag ==> t.session == s)
  {
    assert Events.Step(s, input, env) == Events.IdleStep(s, input, env);
    Events.IdleStepStarts(s, input, env);
  }

  /** The assistant's flag says exactly whether the event handler is in a dialogue, turn after turn. */
  lemma FlagTracksDialogue(flag: bool, s: Events.Session, input: string, env: Events.Env, a: Answers)
    requires Events.Inv(s) && flag == s.creating
    ensures var t := Respond(flag, s, input, env, a);
      Events.Inv(t.session) && t.flag == t.session.creating
  {
    Events.StepKeepsInv(s, input, env);
    if s.creating {
      DialogueKeepsTheTurn(flag, s, input, env, a);
    } else {
      IdleTurn(s, input, env, a);
    }
  }

  /** The weather handler, the location handler or the language model, whichever comes first for the input. */
  method AnswerElsewhere(input: string, h: Helpers) returns (reply: string)
    ensures reply == OtherReply(input, AnswersFor(input, h)).0
  {
    if Weather.IsWeatherQuery(input) {
      reply := Weather.ProcessWeatherQuery(input, h.weather.(dateExtractor := None));
    } else if IsLocationQuery(input) {
      reply := Location.ProcessLocationQuery(input, h.places);
    } else {
      reply := h.llm(input);
    }
  }

  class PersonalAssistant {
    var inEventCreation: bool
    var spoken: seq<string>
    const events: Events.EventHandler
    const helpers: Helpers

    /** The flag mirrors the event handler's dialogue, and the handler is in a reachable state. */
    predicate Valid()
      reads this, events
    {
      Events.Inv(events.State()) && inEventCreation == events.isCreatingEvent
    }

    constructor (env: Events.Env, helpers: Helpers)
      ensures Valid() && spoken == [] && !inEventCreation
      ensures events.env == env && events.State() == Events.Fresh && this.helpers == helpers
      ensures fresh(events)
    {
      events := new Events.EventHandler(env);
      this.helpers := helpers;
      inEventCreation := false;
      spoken := [];
    }

    /** `process_user_input`: exactly one text is spoken per turn. */
    method ProcessUserInput(input: string, weather: Weather.Sources)
      modifies this, events
      ensures var t := Respond(old(inEventCreation), old(events.State()), input, events.env, AnswersFor(input, helpers.(weather := weather)));
        inEventCreation == t.flag && events.State() == t.session && spoken == old(spoken) + [t.reply]
      ensures old(Valid()) ==> Valid()
    {
      var h := helpers.(weather := weather);
      if Valid() {
        FlagTracksDialogue(inEventCreation, events.State(), input, events.env, AnswersFor(input, h));
      }
      if inEventCreation || events.isCreatingEvent || events.isUpdatingEvent || events.awaitingConfirmation {
        var response := events.ProcessQuery(input);
        if response.Raised? {
          spoken := spoken + [Apology];
          return;
        }
        if Events.Spoke(response) {
          inEventCreation := events.isCreatingEvent || events.isUpdatingEvent || events.awaitingConfirmation;
          spoken := spoken + [response.reply.value];
          return;
        }
      }
      Detect(input, h);
    }

    /** The part of `process_user_input` after the dialogue check: the event detector, then the other handlers. */
    method Detect(input: string, h: Helpers)
      modifies this, events
      ensures var t := DetectorTurn(old(inEventCreation), old(events.State()), input, events.env, AnswersFor(input, h));
        inEventCreation == t.flag && events.State() == t.session && spoken == old(spoken) + [t.reply]
    {
      var eventResponse := events.ProcessQuery(input);
      if eventResponse.Raised? {
        spoken := spoken + [Apology];
        return;
      }
      if Events.Spoke(eventResponse) {
        inEventCreation := true;
        spoken := spoken + [eventResponse.reply.value];
        return;
      }
      var reply := AnswerElsewhere(input, h);
      spoken := spoken + [reply];
    }
  }
}
