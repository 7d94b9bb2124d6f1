/** The turn controller: one request cycle against the session log, the
    "Clear chat" action, and whole sessions as sequences of such events. */
module TurnController {
  import opened Messages
  import opened Styles
  import opened Assembler

  /** What the sidebar supplies besides the style; passed through untouched. */
  datatype RequestConfig = RequestConfig(model: string, temperature: real, maxTokens: int)

  /** The arguments of one call to the completion endpoint. */
  datatype Request = Request(model: string, messages: seq<Msg>, temperature: real, maxTokens: int)

  /** What the completion client gives back: the answer text, or a
      description of whatever exception the call raised. */
  datatype Completion = Ok(text: string) | Err(desc: string)

  /** How a run of the turn block ended. */
  datatype TurnOutcome =
    | UnknownStyle(key: string)                 // the preset lookup raised a key error
    | NoInput                                   // the input box gave nothing (an empty string is false)
    | Completed(request: Request, text: string) // the client answered
    | Failed(request: Request, error: string)   // the client raised

  datatype TurnResult = TurnResult(outcome: TurnOutcome, log: seq<Msg>)

  /** The part of a turn after the preset was found: append the input,
      build the request from the log without that entry, call the client,
      and append its answer verbatim when it gives one. */
  function Exchange(log: seq<Msg>, prompt: string, userText: string, cfg: RequestConfig,
                    client: Request -> Completion): TurnResult
  {
    var appended := log + [Msg(User, userText)];
    var request := Request(cfg.model, BuildMessages(appended[..|appended| - 1], userText, prompt),
                           cfg.temperature, cfg.maxTokens);
    match client(request)
    case Ok(text) => TurnResult(Completed(request, text), appended + [Msg(Assistant, text)])
    case Err(desc) => TurnResult(Failed(request, desc), appended)
  }

  /** One turn as a function of the log before it. The preset lookup comes
      first, then the input test, then the exchange with the client. */
  function Turn(log: seq<Msg>, styleKey: string, userText: string, cfg: RequestConfig,
                client: Request -> Completion): TurnResult
  {
    match LookupPrompt(styleKey)
    case KeyError(k) => TurnResult(UnknownStyle(k), log)
    case Found(prompt) =>
      if userText == "" then TurnResult(NoInput, log) else Exchange(log, prompt, userText, cfg, client)
  }

  /** The request an exchange sends is assembled from the log before the new
      entry; its log grows by the input and, on success, the answer. */
  lemma ExchangeEffect(log: seq<Msg>, prompt: string, userText: string, cfg: RequestConfig,
                       client: Request -> Completion)
    ensures var t := Exchange(log, prompt, userText, cfg, client);
      && (t.outcome.Completed? || t.outcome.Failed?)
      && t.outcome.request == Request(cfg.model, BuildMessages(log, userText, prompt),
                                      cfg.temperature, cfg.maxTokens)
      && (t.outcome.Completed? ==>
            client(t.outcome.request) == Ok(t.outcome.text)
            && t.log == log + [Msg(User, userText), Msg(Assistant, t.outcome.text)])
      && (t.outcome.Failed? ==>
            client(t.outcome.request) == Err(t.outcome.error)
            && t.log == log + [Msg(User, userText)])
  {
    var appended := log + [Msg(User, userText)];
    assert appended[..|appended| - 1] == log;
    var request := Request(cfg.model, BuildMessages(log, userText, prompt), cfg.temperature, cfg.maxTokens);
    match client(request) {
      case Ok(text) =>
        assert appended + [Msg(Assistant, text)] == log + [Msg(User, userText), Msg(Assistant, text)];
      case Err(_) =>
    }
  }

  /** Which outcome a turn has: a key error exactly for a style outside the
      presets, no turn exactly for an empty input, and otherwise whatever the
      client returned for the request, carried over verbatim. */
  lemma TurnOutcomeCases(log: seq<Msg>, styleKey: string, userText: string, cfg: RequestConfig,
                         client: Request -> Completion)
    ensures var o := Turn(log, styleKey, userText, cfg, client).outcome;
      && (o.UnknownStyle? <==> styleKey !in StyleOptions)
      && (o.UnknownStyle? ==> o.key == styleKey)
      && (o.NoInput? <==> styleKey in StyleOptions && userText == "")
      && (o.Completed? ==> client(o.request) == Ok(o.text))
      && (o.Failed? ==> client(o.request) == Err(o.error))
      && (styleKey in StyleOptions && userText != "" ==> o.Completed? || o.Failed?)
  {
    if LookupPrompt(styleKey).Found? && userText != "" {
      ExchangeEffect(log, LookupPrompt(styleKey).prompt, userText, cfg, client);
    }
  }

  /** The request a turn sends: the model settings as given, and the
      messages assembled from the log BEFORE the new entry, so the entry just
      appended is not sent a second time and the input is the last message. */
  lemma TurnRequest(log: seq<Msg>, styleKey: string, userText: string, cfg: RequestConfig,
                    client: Request -> Completion)
    requires styleKey in StyleOptions && userText != ""
    ensures var o := Turn(log, styleKey, userText, cfg, client).outcome;
      var m := o.request.messages;
      && o.request.model == cfg.model
      && o.request.temperature == cfg.temperature
      && o.request.maxTokens == cfg.maxTokens
      && m == BuildMessages(log, userText, SystemPrompts[styleKey])
      && |m| == Min(|log|, MaxTurns) + 2
      && m[0] == Msg(System, SystemPrompts[styleKey])
      && m[|m| - 1] == Msg(User, userText)
      && m[1..|m| - 1] == Window(log)
  {
    ExchangeEffect(log, SystemPrompts[styleKey], userText, cfg, client);
  }

  /** The invariant of the request actually sent: built from a well-formed
      log, it holds exactly one system message, the first. */
  lemma TurnSendsOneSystem(log: seq<Msg>, styleKey: string, userText: string, cfg: RequestConfig,
                           client: Request -> Completion)
    requires WellFormedLog(log) && styleKey in StyleOptions && userText != ""
    ensures var m := Turn(log, styleKey, userText, cfg, client).outcome.request.messages;
      && m[0] == Msg(System, SystemPrompts[styleKey])
      && (forall i :: 0 < i < |m| ==> m[i].role != System)
      && CountRole(m, System) == 1
  {
    TurnRequest(log, styleKey, userText, cfg, client);
    OneSystemMessage(log, userText, SystemPrompts[styleKey]);
  }

  /** How a turn changes the log: two entries (the input, then the answer
      verbatim) on success, the input alone on failure, nothing when there
      is no turn; what was there before is never changed. */
  lemma TurnLogEffect(log: seq<Msg>, styleKey: string, userText: string, cfg: RequestConfig,
                      client: Request -> Completion)
    ensures var t := Turn(log, styleKey, userText, cfg, client);
      && (t.outcome.Completed? ==>
            t.log == log + [Msg(User, userText), Msg(Assistant, t.outcome.text)]
            && |t.log| == |log| + 2
            && t.log[|t.log| - 2] == Msg(User, userText)
            && t.log[|t.log| - 1] == Msg(Assistant, t.outcome.text))
      && (t.outcome.Failed? ==>
            t.log == log + [Msg(User, userText)]
            && |t.log| == |log| + 1 && t.log[|t.log| - 1] == Msg(User, userText))
      && (t.outcome.UnknownStyle? || t.outcome.NoInput? ==> t.log == log)
      && t.log[..|log|] == log
  {
    if LookupPrompt(styleKey).Found? && userText != "" {
      ExchangeEffect(log, LookupPrompt(styleKey).prompt, userText, cfg, client);
    }
  }

  /** A turn keeps the log well formed. */
  lemma TurnKeepsWellFormed(log: seq<Msg>, styleKey: string, userText: string, cfg: RequestConfig,
                            client: Request -> Completion)
    requires WellFormedLog(log)
    ensures WellFormedLog(Turn(log, styleKey, userText, cfg, client).log)
  {
    var t := Turn(log, styleKey, userText, cfg, client);
    TurnLogEffect(log, styleKey, userText, cfg, client);
    if t.outcome.Completed? || t.outcome.Failed? {
      AppendQuestion(log, userText);
      if t.outcome.Completed? {
        AppendAnswer(log + [Msg(User, userText)], t.outcome.text);
        assert t.log == log + [Msg(User, userText)] + [Msg(Assistant, t.outcome.text)];
      }
    }
  }

  /** One user action between two reruns of the page. */
  datatype Event =
    | Submit(styleKey: string, userText: string, cfg: RequestConfig, client: Request -> Completion)
    | ClearChat

  function Step(log: seq<Msg>, e: Event): seq<Msg>
  {
    match e
    case Submit(k, t, cfg, client) => Turn(log, k, t, cfg, client).log
    case ClearChat => []
  }

  /** The log after a sequence of events. */
  function Replay(log: seq<Msg>, events: seq<Event>): seq<Msg>
    decreases |events|
  {
    if events == [] then log else Replay(Step(log, events[0]), events[1..])
  }

  lemma {:induction false} ReplayKeepsWellFormed(log: seq<Msg>, events: seq<Event>)
    requires WellFormedLog(log)
    ensures WellFormedLog(Replay(log, events))
    decreases |events|
  {
    if events != [] {
      match events[0] {
        case Submit(k, t, cfg, client) => TurnKeepsWellFormed(log, k, t, cfg, client);
        case ClearChat =>
      }
      ReplayKeepsWellFormed(Step(log, events[0]), events[1..]);
    }
  }

  /** Without a clear the log is append-only: it keeps its old entries as a
      prefix and grows by at most two entries per event. */
  lemma {:induction false} ReplayAppendOnly(log: seq<Msg>, events: seq<Event>)
    requires forall i :: 0 <= i < |events| ==> events[i].Submit?
    ensures var l := Replay(log, events);
      |log| <= |l| <= |log| + 2 * |events| && l[..|log|] == log
    decreases |events|
  {
    if events != [] {
      var e := events[0];
      TurnLogEffect(log, e.styleKey, e.userText, e.cfg, e.client);
      var next := Step(log, e);
      ReplayAppendOnly(next, events[1..]);
      var l := Replay(next, events[1..]);
      assert l[..|log|] == l[..|next|][..|log|];
    }
  }

  /** After a clear, the session goes on exactly as one started afresh. */
  lemma {:induction false} ReplayAfterClear(log: seq<Msg>, before: seq<Event>, after: seq<Event>)
    ensures Replay(log, before + [ClearChat] + after) == Replay([], after)
    decreases |before|
  {
    if before == [] {
      assert before + [ClearChat] + after == [ClearChat] + after;
      assert ([ClearChat] + after)[1..] == after;
    } else {
      var rest := before[1..] + [ClearChat] + after;
      assert (before + [ClearChat] + after)[0] == before[0];
      assert (before + [ClearChat] + after)[1..] == rest;
      ReplayAfterClear(Step(log, before[0]), before[1..], after);
    }
  }

  /** The session: the conversation log it owns and updates in place. */
  class Session {
    var log: seq<Msg>

    ghost predicate Valid()
      reads this
    {
      WellFormedLog(log)
    }

    /** A new session starts with an empty log. */
    constructor ()
      ensures Valid() && log == []
    {
      log := [];
    }

    /** The "Clear chat" action. */
    method Clear()
      modifies this
      ensures Valid() && log == []
    {
      log := [];
    }

    /** One run of the turn block with the completion client `client`. */
    method HandleTurn(styleKey: string, userText: string, cfg: RequestConfig,
                      client: Request -> Completion) returns (outcome: TurnOutcome)
      requires Valid()
      modifies this
      ensures Valid()
      ensures TurnResult(outcome, log) == Turn(old(log), styleKey, userText, cfg, client)
      ensures outcome.Completed? ==>
        log == old(log) + [Msg(User, userText), Msg(Assistant, outcome.text)]
      ensures outcome.Failed? ==> log == old(log) + [Msg(User, userText)]
      ensures outcome.UnknownStyle? || outcome.NoInput? ==> log == old(log)
      ensures outcome.Completed? || outcome.Failed? ==>
        outcome.request.messages[0].role == System
        && CountRole(outcome.request.messages, System) == 1
    {
      var lookup := LookupPrompt(styleKey);
      if lookup.KeyError? {
        return UnknownStyle(lookup.key);
      }
      if userText == "" {
        return NoInput;
      }
      ghost var before := log;
      assert Turn(before, styleKey, userText, cfg, client)
          == Exchange(before, lookup.prompt, userText, cfg, client);
      log := log + [Msg(User, userText)];
      var request := Request(cfg.model, BuildMessages(log[..|log| - 1], userText, lookup.prompt),
                             cfg.temperature, cfg.maxTokens);
      assert log[..|log| - 1] == before;
      ExchangeEffect(before, lookup.prompt, userText, cfg, client);
      var reply := client(request);
      match reply {
        case Ok(text) =>
          log := log + [Msg(Assistant, text)];
          outcome := Completed(request, text);
        case Err(desc) =>
          outcome := Failed(request, desc);
      }
      TurnKeepsWellFormed(before, styleKey, userText, cfg, client);
      TurnSendsOneSystem(before, styleKey, userText, cfg, client);
    }
  }

  /** An example turn: an empty log, the "Concise" style and the
      input "Hi" send exactly the instruction and the input. */
  lemma ConciseHiOnEmptyLog(cfg: RequestConfig, client: Request -> Completion)
    ensures Turn([], "Concise", "Hi", cfg, client).outcome.request.messages ==
      [ Msg(System, "You are a concise assistant. Give short, direct answers with bullet points when useful."),
        Msg(User, "Hi") ]
  {
    TurnRequest([], "Concise", "Hi", cfg, client);
    PresetTexts();
    EmptyHistory("Hi", SystemPrompts["Concise"]);
  }
}
