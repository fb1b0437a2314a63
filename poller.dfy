/** The poll loop of homework.py `main`: the locals `timestamp`, `answers` and
    `errors` carried from cycle to cycle, one cycle as a pure transition
    (`Step`) and as the imperative code it is (`Cycle`), and the loop over a
    finite run of poll outcomes (`RunBot`). Sending a message is appending its
    text to the cycle's output. */
module Poller {
  import opened JsonValue
  import opened Homework

  /** The result of one call of get_api_answer: the decoded body, or the
      text of the exception it raised. */
  datatype FetchOutcome = Fetched(response: Json) | FetchFailed(text: string)

  /** The loop's locals between cycles: the `from_date` cursor, the last
      status notified on and the last error text notified on. */
  datatype State = State(timestamp: Json, answers: string, errors: string)

  /** The state after a run of cycles and the messages sent during it, in order. */
  datatype Transition = Transition(next: State, sent: seq<string>)

  /** What one poll amounts to once its body has been checked: an exception
      with its text, an empty `homeworks` list, or the status and rendered
      message of the first homework. */
  datatype Evaluation = Fault(text: string) | NoNews | Report(status: string, message: string)

  const ErrorPrefix := "Сбой в работе программы: "

  /** The state `main` enters the loop with: the cursor is the current time
      in whole seconds, `now`, and nothing has been notified yet. */
  function Initial(now: int): State
  {
    State(JInt(now), "", "")
  }

  /** The homeworks list of a body that passed check_response. */
  function Homeworks(response: Json): seq<Json>
    requires CheckResponse(response).Ok?
  {
    Get(response.entries, "homeworks").items
  }

  /** The cycle's work up to the send decision: check_response, then, for a
      non-empty list, parse_status of its first entry and that entry's status. */
  function Evaluate(outcome: FetchOutcome): (e: Evaluation)
    ensures e.Report? ==> e.status in {"approved", "reviewing", "rejected"}
    ensures e.Report? ==> outcome.Fetched? && CheckResponse(outcome.response).Ok?
                          && Homeworks(outcome.response) != []
                          && ParseStatus(Homeworks(outcome.response)[0]) == Ok(e.message)
                          && StatusOf(Homeworks(outcome.response)[0]) == JStr(e.status)
    ensures e.NoNews? <==> outcome.Fetched? && CheckResponse(outcome.response).Ok?
                           && Homeworks(outcome.response) == []
    // every failure path reports the text of the exception raised on it
    ensures outcome.FetchFailed? ==> e == Fault(outcome.text)
    ensures outcome.Fetched? && CheckResponse(outcome.response).Err? ==>
              e == Fault(CheckResponse(outcome.response).error.Text())
    // a checked, non-empty body is reported exactly when its first entry parses
    ensures outcome.Fetched? && CheckResponse(outcome.response).Ok? && Homeworks(outcome.response) != [] ==>
              var homework := Homeworks(outcome.response)[0];
              e == match ParseStatus(homework)
                   case Ok(message) => Report(StatusOf(homework).s, message)
                   case Err(f) => Fault(f.Text())
  {
    match outcome
    case FetchFailed(text) => Fault(text)
    case Fetched(response) =>
      match CheckResponse(response)
      case Err(f) => Fault(f.Text())
      case Ok(_) =>
        var homeworks := Homeworks(response);
        if |homeworks| == 0 then NoNews
        else
          match ParseStatus(homeworks[0])
          case Err(f) => Fault(f.Text())
          case Ok(message) =>
            KnownStatuses(StatusOf(homeworks[0]).s);
            Report(StatusOf(homeworks[0]).s, message)
  }

  /** The cursor after a cycle: the body's `current_date` entry when the key
      is present (whatever its value), the old cursor otherwise; the update is
      reached only by a body that passed check_response. */
  function Cursor(timestamp: Json, outcome: FetchOutcome): (t: Json)
    ensures t != timestamp ==> outcome.Fetched? && CheckResponse(outcome.response).Ok?
                               && "current_date" in outcome.response.entries
                               && t == outcome.response.entries["current_date"]
  {
    if outcome.Fetched? && CheckResponse(outcome.response).Ok?
       && "current_date" in outcome.response.entries
    then outcome.response.entries["current_date"]
    else timestamp
  }

  /** One cycle of the loop: move the cursor, then send the status message
      when the status differs from the remembered one (resetting the remembered
      error on the first two verdict keys), or send the error message when its
      text differs from the remembered error. */
  function Step(s: State, outcome: FetchOutcome): (t: Transition)
    ensures t.next.timestamp == Cursor(s.timestamp, outcome)
    ensures |t.sent| <= 1
    // every message sent changes what the loop remembers
    ensures t.sent != [] ==> t.next.answers != s.answers || t.next.errors != s.errors
    // the remembered status only moves on a report, the remembered error
    // only on a fault or a resetting status
    ensures t.next.answers != s.answers ==> Evaluate(outcome).Report?
    ensures t.next.errors != s.errors ==>
              Evaluate(outcome).Fault?
              || (Evaluate(outcome).Report? && Evaluate(outcome).status in {"approved", "reviewing"})
  {
    var timestamp := Cursor(s.timestamp, outcome);
    match Evaluate(outcome)
    case NoNews => Transition(State(timestamp, s.answers, s.errors), [])
    case Report(status, message) =>
      Transition(State(timestamp, status, if status in ResetStatuses() then "" else s.errors),
                 if status != s.answers then [message] else [])
    case Fault(text) =>
      Transition(State(timestamp, s.answers, text),
                 if text != s.errors then [ErrorPrefix + text] else [])
  }

  /** A finite run of cycles, starting from `s`. */
  function Run(s: State, outcomes: seq<FetchOutcome>): (t: Transition)
    ensures |t.sent| <= |outcomes|
    decreases |outcomes|
  {
    if outcomes == [] then Transition(s, [])
    else
      var first := Step(s, outcomes[0]);
      var rest := Run(first.next, outcomes[1..]);
      Transition(rest.next, first.sent + rest.sent)
  }

  /** Running one more cycle extends a run by one step. */
  lemma {:induction false} RunSnoc(s: State, outcomes: seq<FetchOutcome>, outcome: FetchOutcome)
    ensures Run(s, outcomes + [outcome]) ==
            var before := Run(s, outcomes);
            var last := Step(before.next, outcome);
            Transition(last.next, before.sent + last.sent)
    decreases |outcomes|
  {
    if outcomes == [] {
      assert [] + [outcome] == [outcome];
    } else {
      var first := Step(s, outcomes[0]);
      assert (outcomes + [outcome])[0] == outcomes[0];
      assert (outcomes + [outcome])[1..] == outcomes[1..] + [outcome];
      RunSnoc(first.next, outcomes[1..], outcome);
    }
  }

  // -------------------------------------------------------- the loop itself

  /** The body of the `while True` loop, on the loop's locals; returns the
      locals after the cycle and the messages it sent. */
  method Cycle(timestamp: Json, answers: string, errors: string, outcome: FetchOutcome)
    returns (timestamp': Json, answers': string, errors': string, sent: seq<string>)
    ensures Transition(State(timestamp', answers', errors'), sent)
            == Step(State(timestamp, answers, errors), outcome)
  {
    timestamp', answers', errors', sent := timestamp, answers, errors, [];
    var failure: Option<string> := None;
    match outcome {
      case FetchFailed(text) =>
        failure := Some(text);
      case Fetched(response) =>
        var checked := CheckResponse(response);
        if checked.Err? {
          failure := Some(checked.error.Text());
        } else {
          if "current_date" in response.entries {
            timestamp' := response.entries["current_date"];
          }
          var homeworks := Get(response.entries, "homeworks").items;
          if |homeworks| > 0 {
            var homework := homeworks[0];
            var parsed := ParseStatus(homework);
            if parsed.Err? {
              failure := Some(parsed.error.Text());
            } else {
              var answer := StatusOf(homework).s;
              if answer != answers' {
                sent := sent + [parsed.value];
                answers' := answer;
              }
              if answer in ResetStatuses() {
                answers' := answer;
                errors' := "";
              }
            }
          }
        }
    }
    if failure.Some? && failure.value != errors' {
      sent := sent + [ErrorPrefix + failure.value];
      errors' := failure.value;
    }
  }

  /** `main` over a finite run of poll outcomes: check the tokens, then run the
      loop from the current time `now`, returning the final locals and all
      messages sent. A token failure is fatal before the loop starts. */
  method RunBot(practicumToken: Option<string>, telegramToken: Option<string>,
                chatId: Option<string>, now: int, outcomes: seq<FetchOutcome>)
    returns (r: Result<Transition>)
    ensures CheckTokens(practicumToken, telegramToken, chatId).Err? ==>
              r == Err(Raised(TokensMessage))
    ensures CheckTokens(practicumToken, telegramToken, chatId).Ok? ==>
              r == Ok(Run(Initial(now), outcomes))
  {
    var tokens := CheckTokens(practicumToken, telegramToken, chatId);
    if tokens.Err? {
      return Err(tokens.error);
    }
    var timestamp: Json := JInt(now);
    var errors := "";
    var answers := "";
    var outbox: seq<string> := [];
    var i := 0;
    while i < |outcomes|
      invariant 0 <= i <= |outcomes|
      invariant Transition(State(timestamp, answers, errors), outbox) == Run(Initial(now), outcomes[..i])
    {
      var sent;
      timestamp, answers, errors, sent := Cycle(timestamp, answers, errors, outcomes[i]);
      outbox := outbox + sent;
      RunSnoc(Initial(now), outcomes[..i], outcomes[i]);
      assert outcomes[..i + 1] == outcomes[..i] + [outcomes[i]];
      i := i + 1;
    }
    assert outcomes[..i] == outcomes;
    r := Ok(Transition(State(timestamp, answers, errors), outbox));
  }
}
