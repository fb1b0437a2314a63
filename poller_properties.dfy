/** What the poll loop promises, stated over one cycle and over runs of
    cycles: where the cursor goes, when a status or an error is notified,
    when the remembered status and error change, and the worked examples of
    one cycle. */
module PollerProperties {
  import opened JsonValue
  import opened Homework
  import opened Poller

  // ------------------------------------------------------------- one cycle

  /** After a body passes check_response the cursor becomes its `current_date`
      when that key is present (whatever its value) and stays put otherwise. */
  lemma CursorAfterCheckedResponse(s: State, response: Json)
    requires CheckResponse(response).Ok?
    ensures Step(s, Fetched(response)).next.timestamp ==
            if "current_date" in response.entries then response.entries["current_date"]
            else s.timestamp
  {
  }

  /** A fetch failure or a body refused by check_response leaves the cursor
      where it was. */
  lemma CursorKeptWithoutCheckedResponse(s: State, outcome: FetchOutcome)
    requires outcome.FetchFailed? || CheckResponse(outcome.response).Err?
    ensures Step(s, outcome).next.timestamp == s.timestamp
  {
  }

  /** The cursor moves before the first homework is parsed, so it keeps its
      new value when parse_status then fails in the same cycle; the failure is
      handled like any other error. */
  lemma CursorMovesEvenIfParseFails(s: State, response: Json)
    requires CheckResponse(response).Ok? && Homeworks(response) != []
    requires ParseStatus(Homeworks(response)[0]).Err?
    ensures var text := ParseStatus(Homeworks(response)[0]).error.Text();
            var cursor := if "current_date" in response.entries then response.entries["current_date"]
                          else s.timestamp;
            Step(s, Fetched(response)) ==
            Transition(State(cursor, s.answers, text),
                       if text != s.errors then [ErrorPrefix + text] else [])
  {
  }

  /** An empty `homeworks` list sends nothing and leaves the remembered
      status and error as they were. */
  lemma EmptyHomeworksSendNothing(s: State, response: Json)
    requires CheckResponse(response).Ok? && Homeworks(response) == []
    ensures Step(s, Fetched(response)) ==
            Transition(State(Cursor(s.timestamp, Fetched(response)), s.answers, s.errors), [])
  {
  }

  /** Only the entry at index 0 of a non-empty `homeworks` list is read:
      whatever follows it, the cycle does the same. */
  lemma OnlyFirstHomeworkMatters(s: State, entries: map<string, Json>, first: Json,
                                 tail1: seq<Json>, tail2: seq<Json>)
    ensures Step(s, Fetched(JDict(entries["homeworks" := JList([first] + tail1)]))) ==
            Step(s, Fetched(JDict(entries["homeworks" := JList([first] + tail2)])))
  {
  }

  /** A reported status is notified exactly when it differs from the
      remembered one and is remembered afterwards; `approved` and `reviewing`
      clear the remembered error, `rejected` keeps it. */
  lemma StatusNotifiedWhenChanged(s: State, outcome: FetchOutcome)
    requires Evaluate(outcome).Report?
    ensures var e := Evaluate(outcome);
            var t := Step(s, outcome);
            && (t.sent == [e.message] <==> e.status != s.answers)
            && (t.sent == [] <==> e.status == s.answers)
            && t.next.answers == e.status
            && (e.status in {"approved", "reviewing"} ==> t.next.errors == "")
            && (e.status == "rejected" ==> t.next.errors == s.errors)
  {
  }

  /** A failing cycle notifies `Сбой в работе программы: {err}` exactly when
      the error text differs from the remembered one, then remembers it; the
      remembered status is never touched. */
  lemma FaultNotifiedWhenChanged(s: State, outcome: FetchOutcome)
    requires Evaluate(outcome).Fault?
    ensures var text := Evaluate(outcome).text;
            var t := Step(s, outcome);
            && t.sent == (if text != s.errors then ["Сбой в работе программы: " + text] else [])
            && t.next.errors == text
            && t.next.answers == s.answers
  {
  }

  // -------------------------------------------------------------- many cycles

  /** The same status on consecutive cycles is notified at most once: on the
      first cycle, and only when it differs from the status remembered before
      the run. This holds even when the homework names differ. */
  lemma {:induction false} RepeatedStatusNotifiedOnce(s: State, outcomes: seq<FetchOutcome>, status: string)
    requires outcomes != []
    requires forall i :: 0 <= i < |outcomes| ==>
               Evaluate(outcomes[i]).Report? && Evaluate(outcomes[i]).status == status
    ensures Run(s, outcomes).sent ==
            if status != s.answers then [Evaluate(outcomes[0]).message] else []
    ensures Run(s, outcomes).next.answers == status
    decreases |outcomes|
  {
    var first := Step(s, outcomes[0]);
    if |outcomes| > 1 {
      RepeatedStatusNotifiedOnce(first.next, outcomes[1..], status);
      assert Run(first.next, outcomes[1..]).sent == [];
    }
  }

  /** The same error text on consecutive cycles is notified at most once, and
      a run of failures never changes the remembered status. */
  lemma {:induction false} RepeatedFaultNotifiedOnce(s: State, outcomes: seq<FetchOutcome>, text: string)
    requires outcomes != []
    requires forall i :: 0 <= i < |outcomes| ==> Evaluate(outcomes[i]) == Fault(text)
    ensures Run(s, outcomes).sent == if text != s.errors then [ErrorPrefix + text] else []
    ensures Run(s, outcomes).next.errors == text
    ensures Run(s, outcomes).next.answers == s.answers
    decreases |outcomes|
  {
    var first := Step(s, outcomes[0]);
    if |outcomes| > 1 {
      RepeatedFaultNotifiedOnce(first.next, outcomes[1..], text);
    }
  }

  /** While no cycle reports a status other than the remembered one, the
      remembered status stays (a notified `rejected` is kept until another
      status is seen) and every message sent is an error message. */
  lemma {:induction false} StatusKeptUntilAnotherReported(s: State, outcomes: seq<FetchOutcome>)
    requires forall i :: 0 <= i < |outcomes| && Evaluate(outcomes[i]).Report? ==>
               Evaluate(outcomes[i]).status == s.answers
    ensures Run(s, outcomes).next.answers == s.answers
    ensures forall m :: m in Run(s, outcomes).sent ==> ErrorPrefix <= m
    decreases |outcomes|
  {
    if outcomes != [] {
      var first := Step(s, outcomes[0]);
      assert first.next.answers == s.answers;
      assert forall i :: 1 <= i < |outcomes| ==> outcomes[1..][i - 1] == outcomes[i];
      StatusKeptUntilAnotherReported(first.next, outcomes[1..]);
    }
  }

  /** The remembered error survives every cycle that neither fails nor
      reports `approved` or `reviewing`; in particular `rejected` and empty
      lists keep it. */
  lemma {:induction false} ErrorKeptWithoutFaultOrReset(s: State, outcomes: seq<FetchOutcome>)
    requires forall i :: 0 <= i < |outcomes| ==>
               && !Evaluate(outcomes[i]).Fault?
               && (Evaluate(outcomes[i]).Report? ==> Evaluate(outcomes[i]).status == "rejected")
    ensures Run(s, outcomes).next.errors == s.errors
    decreases |outcomes|
  {
    if outcomes != [] {
      var first := Step(s, outcomes[0]);
      assert first.next.errors == s.errors;
      assert forall i :: 1 <= i < |outcomes| ==> outcomes[1..][i - 1] == outcomes[i];
      ErrorKeptWithoutFaultOrReset(first.next, outcomes[1..]);
    }
  }

  /** Three cycles in a row send what each of their steps sends. */
  lemma RunOfThree(s: State, o1: FetchOutcome, o2: FetchOutcome, o3: FetchOutcome)
    ensures var t1 := Step(s, o1);
            var t2 := Step(t1.next, o2);
            Run(s, [o1, o2, o3]).sent == t1.sent + t2.sent + Step(t2.next, o3).sent
  {
    var t1 := Step(s, o1);
    var t2 := Step(t1.next, o2);
    var t3 := Step(t2.next, o3);
    assert [o1, o2, o3][1..] == [o2, o3];
    assert [o2, o3][1..] == [o3];
    assert Run(t2.next, [o3]).sent == t3.sent + [];
    assert Run(t1.next, [o2, o3]).sent == t2.sent + t3.sent;
    assert t1.sent + (t2.sent + t3.sent) == t1.sent + t2.sent + t3.sent;
  }

  /** Only one status is remembered, not a set of them: statuses A, B, A on
      three cycles notify A again on the third. */
  lemma AlternatingStatusesRenotify(s: State, o1: FetchOutcome, o2: FetchOutcome, o3: FetchOutcome)
    requires Evaluate(o1).Report? && Evaluate(o2).Report? && Evaluate(o3).Report?
    requires Evaluate(o1).status == Evaluate(o3).status != Evaluate(o2).status
    ensures Run(s, [o1, o2, o3]).sent ==
            (if Evaluate(o1).status != s.answers then [Evaluate(o1).message] else [])
            + [Evaluate(o2).message, Evaluate(o3).message]
  {
    var t1 := Step(s, o1);
    var t2 := Step(t1.next, o2);
    StatusNotifiedWhenChanged(s, o1);
    StatusNotifiedWhenChanged(t1.next, o2);
    StatusNotifiedWhenChanged(t2.next, o3);
    RunOfThree(s, o1, o2, o3);
  }

  /** `approved` and `reviewing` clear the remembered error too, so an error
      notified before such a status is notified again when it recurs. */
  lemma ResetStatusRenotifiesError(s: State, failing: FetchOutcome, reset: FetchOutcome, text: string)
    requires Evaluate(failing) == Fault(text) && text != ""
    requires Evaluate(reset).Report? && Evaluate(reset).status in {"approved", "reviewing"}
    ensures Run(s, [failing, reset, failing]).sent ==
            (if text != s.errors then [ErrorPrefix + text] else [])
            + (if Evaluate(reset).status != s.answers then [Evaluate(reset).message] else [])
            + [ErrorPrefix + text]
  {
    var t1 := Step(s, failing);
    var t2 := Step(t1.next, reset);
    FaultNotifiedWhenChanged(s, failing);
    StatusNotifiedWhenChanged(t1.next, reset);
    FaultNotifiedWhenChanged(t2.next, failing);
    RunOfThree(s, failing, reset, failing);
  }

  // ------------------------------------------------------------- examples

  /** `{"homeworks": [{"homework_name": "hw1", "status": "reviewing"}],
      "current_date": 1000}` from the initial state. */
  lemma ReviewingExample(now: int)
    ensures var homework := JDict(map["homework_name" := JStr("hw1"), "status" := JStr("reviewing")]);
            var response := JDict(map["homeworks" := JList([homework]), "current_date" := JInt(1000)]);
            Step(Initial(now), Fetched(response)) ==
            Transition(State(JInt(1000), "reviewing", ""),
                       ["Изменился статус проверки работы \"" + "hw1" + "\". "
                        + "Работа взята на проверку ревьюером."])
  {
    var homework := JDict(map["homework_name" := JStr("hw1"), "status" := JStr("reviewing")]);
    var response := JDict(map["homeworks" := JList([homework]), "current_date" := JInt(1000)]);
    var message := "Изменился статус проверки работы \"" + "hw1" + "\". "
                   + "Работа взята на проверку ревьюером.";
    KnownStatuses("reviewing");
    assert CheckResponse(response).Ok?;
    assert Homeworks(response) == [homework];
    assert NameOf(homework) == JStr("hw1") && StatusOf(homework) == JStr("reviewing");
    assert Lookup(Verdicts, "reviewing").value == "Работа взята на проверку ревьюером.";
    assert ParseStatus(homework) == Ok(message);
    assert Evaluate(Fetched(response)) == Report("reviewing", message);
    assert Cursor(JInt(now), Fetched(response)) == JInt(1000);
  }

  /** An unknown status makes parse_status raise a KeyError, whose text
      Python shows in quotes; it is notified once from the initial state. */
  lemma BogusStatusExample(now: int)
    ensures var homework := JDict(map["homework_name" := JStr("hw1"), "status" := JStr("bogus")]);
            var response := JDict(map["homeworks" := JList([homework])]);
            Step(Initial(now), Fetched(response)) ==
            Transition(State(JInt(now), "", "'" + "Домашняя работа получена без статуса." + "'"),
                       ["Сбой в работе программы: " + ("'" + "Домашняя работа получена без статуса." + "'")])
  {
    var homework := JDict(map["homework_name" := JStr("hw1"), "status" := JStr("bogus")]);
    var response := JDict(map["homeworks" := JList([homework])]);
    var text := "'" + StatusMessage + "'";
    assert CheckResponse(response).Ok? && Homeworks(response) == [homework];
    assert ParseStatus(homework) == Err(KeyError(StatusMessage)) by {
      assert NameOf(homework) == JStr("hw1") && StatusOf(homework) == JStr("bogus");
      KnownStatuses("bogus");
    }
    assert Evaluate(Fetched(response)) == Fault(text);
    assert "current_date" !in response.entries;
    CursorAfterCheckedResponse(Initial(now), response);
    assert |text| > 0;
    FaultNotifiedWhenChanged(Initial(now), Fetched(response));
  }
}
