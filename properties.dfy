/**
 * Properties of `__run_llm` and `get_ai_output`, stated on `Answer`, which
 * `RunLlm` and `GetAiOutput` are proved to compute.
 */
module AnswerProperties {
  import opened Wrappers
  import PyInt
  import opened Orchestrator

  /** Tool call `i` is the first one the loop does not skip. */
  predicate IsFirstNotSkipped(calls: seq<ToolCall>, i: int) {
    0 <= i < |calls| && !Examine(calls[i]).Skip?
    && forall j :: 0 <= j < i ==> Examine(calls[j]).Skip?
  }

  /** The loop stops at the first call it does not skip, and that call decides. */
  lemma {:induction false} FirstVerdictAt(calls: seq<ToolCall>, i: int)
    requires IsFirstNotSkipped(calls, i)
    ensures FirstVerdict(calls) == Examine(calls[i])
  {
    if i > 0 {
      assert IsFirstNotSkipped(calls[1..], i - 1) by {
        forall j | 0 <= j < i - 1 ensures Examine(calls[1..][j]).Skip? {
          assert calls[1..][j] == calls[j + 1];
        }
      }
      FirstVerdictAt(calls[1..], i - 1);
    }
  }

  /** Conversely, a verdict other than `Skip` comes from the first call not skipped. */
  lemma {:induction false} FirstVerdictFrom(calls: seq<ToolCall>)
    requires !FirstVerdict(calls).Skip?
    ensures exists i :: IsFirstNotSkipped(calls, i) && Examine(calls[i]) == FirstVerdict(calls)
  {
    if Examine(calls[0]).Skip? {
      FirstVerdictFrom(calls[1..]);
      var i :| IsFirstNotSkipped(calls[1..], i) && Examine(calls[1..][i]) == FirstVerdict(calls[1..]);
      assert IsFirstNotSkipped(calls, i + 1) by {
        forall j | 0 <= j < i + 1 ensures Examine(calls[j]).Skip? {
          if j > 0 {
            assert calls[j] == calls[1..][j - 1];
          }
        }
      }
    } else {
      assert IsFirstNotSkipped(calls, 0);
    }
  }

  /** Calls after the first one not skipped are never examined. */
  lemma {:induction false} FirstVerdictAppend(xs: seq<ToolCall>, ys: seq<ToolCall>)
    ensures FirstVerdict(xs + ys) == if FirstVerdict(xs).Skip? then FirstVerdict(ys) else FirstVerdict(xs)
  {
    if |xs| > 0 {
      assert (xs + ys)[0] == xs[0];
      assert (xs + ys)[1..] == xs[1..] + ys;
      FirstVerdictAppend(xs[1..], ys);
    } else {
      assert xs + ys == ys;
    }
  }

  /**
   * The condition under which a tool call asks for the holiday lookup `q`:
   * it is named `get_holidays`, `state` is a non-empty string, and `year` and
   * `month` are present and `int()` turns them into non-zero integers.
   */
  predicate AsksFor(c: ToolCall, q: HolidayQuery) {
    c.name == Some(HolidaysTool) && c.args.Some?
    && "state" in c.args.value && c.args.value["state"] == q.state && q.state != ""
    && "year" in c.args.value && PyInt.ParseInt(c.args.value["year"]) == Some(q.year) && q.year != 0
    && "month" in c.args.value && PyInt.ParseInt(c.args.value["month"]) == Some(q.month) && q.month != 0
  }

  /** A tool call is dispatched with `q` exactly when it asks for `q`. */
  lemma ExamineDispatchIff(c: ToolCall, q: HolidayQuery)
    ensures Examine(c) == Dispatch(q) <==> AsksFor(c, q)
  {
    if AsksFor(c, q) {
      assert PyInt.ParseInt("") == None;
      assert Examine(c) == Dispatch(q);
    }
    if Examine(c) == Dispatch(q) {
      assert AsksFor(c, q);
    }
  }

  /**
   * Coercion comes before the gate: a present, non-empty `year` or `month`
   * that `int()` rejects makes the call fail, whatever `state` is.
   */
  lemma ExamineRejectsNonInteger(c: ToolCall, key: string)
    requires key == "year" || key == "month"
    requires c.name == Some(HolidaysTool) && c.args.Some?
    requires key in c.args.value && c.args.value[key] != ""
    requires PyInt.ParseInt(c.args.value[key]).None?
    ensures Examine(c) == BadNumber
  {
  }

  /** `year` or `month` is absent, empty, or a string `int()` accepts. */
  predicate CoercesOrAbsent(args: map<string, string>, key: string) {
    key !in args || args[key] == "" || PyInt.ParseInt(args[key]).Some?
  }

  /** `year` or `month` is present and `int()` turns it into a non-zero integer. */
  predicate NonZeroInt(args: map<string, string>, key: string) {
    key in args && PyInt.ParseInt(args[key]).Some? && PyInt.ParseInt(args[key]).value != 0
  }

  /**
   * A `get_holidays` call whose arguments all convert but whose `state` is
   * missing or empty, or whose `year` or `month` is missing or zero, is
   * skipped: the service is not called and the loop goes on.
   */
  lemma GateClosedSkips(c: ToolCall)
    requires c.name == Some(HolidaysTool) && c.args.Some? && |c.args.value| > 0
    requires CoercesOrAbsent(c.args.value, "year") && CoercesOrAbsent(c.args.value, "month")
    requires !("state" in c.args.value && c.args.value["state"] != "")
      || !NonZeroInt(c.args.value, "year") || !NonZeroInt(c.args.value, "month")
    ensures Examine(c) == Skip
  {
    var args := c.args.value;
    var year, month := Coerce(Lookup(args, "year")), Coerce(Lookup(args, "month"));
    if year.Value? && year.n != 0 {
      assert NonZeroInt(args, "year");
    }
    if month.Value? && month.n != 0 {
      assert NonZeroInt(args, "month");
    }
  }

  /** A well-formed call to any tool other than `get_holidays` is skipped. */
  lemma OtherToolSkipped(c: ToolCall)
    requires Truthy(c.name) && c.name.value != HolidaysTool
    requires c.args.Some? && |c.args.value| > 0
    ensures Examine(c) == Skip
  {
  }

  /** A falsy model result, or a result without tool calls, ends in the apology before any other call. */
  lemma ApologyWithoutToolCalls<H>(a: Assistant<H>, prompt: string)
    requires a.invoke(prompt).NoResult? || a.invoke(prompt) == Reply([])
    ensures Answer(a, prompt).output == Apology
    ensures Answer(a, prompt).trace.query.None? && Answer(a, prompt).trace.followUp.None?
  {
  }

  /** A call with a missing or empty name or arguments, reached before any dispatch, ends in the apology. */
  lemma MalformedCallApologises<H>(a: Assistant<H>, prompt: string, i: int)
    requires a.invoke(prompt).Reply? && 0 <= i < |a.invoke(prompt).toolCalls|
    requires forall j :: 0 <= j < i ==> Examine(a.invoke(prompt).toolCalls[j]).Skip?
    requires var c := a.invoke(prompt).toolCalls[i];
      c.name.None? || c.name == Some("") || c.args.None? || c.args == Some(map[])
    ensures Answer(a, prompt) == Run(Apology, Trace(None, None, Some(MissingNameOrArgs)))
  {
    FirstVerdictAt(a.invoke(prompt).toolCalls, i);
  }

  /**
   * A `get_holidays` call whose `year` or `month` `int()` rejects, reached
   * before any dispatch, ends in the apology, with or without `state`.
   */
  lemma NonIntegerApologises<H>(a: Assistant<H>, prompt: string, i: int, key: string)
    requires key == "year" || key == "month"
    requires a.invoke(prompt).Reply? && 0 <= i < |a.invoke(prompt).toolCalls|
    requires forall j :: 0 <= j < i ==> Examine(a.invoke(prompt).toolCalls[j]).Skip?
    requires var c := a.invoke(prompt).toolCalls[i];
      c.name == Some(HolidaysTool) && c.args.Some? && key in c.args.value
      && c.args.value[key] != "" && PyInt.ParseInt(c.args.value[key]).None?
    ensures Answer(a, prompt) == Run(Apology, Trace(None, None, Some(NotAnInteger)))
  {
    ExamineRejectsNonInteger(a.invoke(prompt).toolCalls[i], key);
    FirstVerdictAt(a.invoke(prompt).toolCalls, i);
  }

  /**
   * The first call that passes the gate queries the holiday service once with
   * its `(state, year, month)`, and the turn ends there.
   */
  lemma FirstDispatchDecides<H>(a: Assistant<H>, prompt: string, i: int, q: HolidayQuery)
    requires a.invoke(prompt).Reply? && IsFirstNotSkipped(a.invoke(prompt).toolCalls, i)
    requires Examine(a.invoke(prompt).toolCalls[i]) == Dispatch(q)
    ensures Answer(a, prompt).trace.query == Some(q)
    ensures a.getHolidays(q.state, q.year, q.month) == Holidays([]) ==>
      Answer(a, prompt) == Run(NothingFound, Trace(Some(q), None, None))
    ensures a.getHolidays(q.state, q.year, q.month).ServiceFailed? ==>
      Answer(a, prompt) == Run(Apology, Trace(Some(q), None, Some(ServiceRaised)))
    ensures a.getHolidays(q.state, q.year, q.month).Holidays? && |a.getHolidays(q.state, q.year, q.month).list| > 0 ==>
      var reInput := FollowUpPrompt(prompt, a.render(a.getHolidays(q.state, q.year, q.month).list));
      Answer(a, prompt).trace.followUp == Some(reInput)
      && Answer(a, prompt).output == match a.chat(a.modelName, reInput)
        case Text(s) => s
        case NonText => GenericErrorMessage
        case ChatFailed => Apology
  {
    FirstVerdictAt(a.invoke(prompt).toolCalls, i);
  }

  /**
   * Whatever follows the first call not skipped has no effect on the answer:
   * two replies that agree up to and including that call give the same run.
   */
  lemma LaterCallsIgnored<H>(a: Assistant<H>, b: Assistant<H>, prompt: string, i: int, rest: seq<ToolCall>)
    requires b == a.(invoke := b.invoke)
    requires a.invoke(prompt).Reply? && IsFirstNotSkipped(a.invoke(prompt).toolCalls, i)
    requires b.invoke(prompt) == Reply(a.invoke(prompt).toolCalls[..i + 1] + rest)
    ensures Answer(b, prompt) == Answer(a, prompt)
  {
    var calls := a.invoke(prompt).toolCalls;
    var head := calls[..i + 1];
    assert IsFirstNotSkipped(head, i);
    FirstVerdictAt(head, i);
    FirstVerdictAt(calls, i);
    FirstVerdictAppend(head, rest);
  }

  /**
   * When every tool call is skipped, the plain chat is called once on the
   * unchanged prompt; its string content is returned verbatim, other content
   * gives the generic error message, and a raising chat gives the apology.
   */
  lemma NoDispatchChatsOnPrompt<H>(a: Assistant<H>, prompt: string)
    requires a.invoke(prompt).Reply? && |a.invoke(prompt).toolCalls| > 0
    requires forall j :: 0 <= j < |a.invoke(prompt).toolCalls| ==> Examine(a.invoke(prompt).toolCalls[j]).Skip?
    ensures Answer(a, prompt).trace.query.None?
    ensures Answer(a, prompt).trace.followUp == Some(prompt)
    ensures a.chat(a.modelName, prompt).Text? ==>
      Answer(a, prompt).output == a.chat(a.modelName, prompt).content && Answer(a, prompt).trace.failure.None?
    ensures a.chat(a.modelName, prompt).NonText? ==>
      Answer(a, prompt).output == GenericErrorMessage && Answer(a, prompt).trace.failure.None?
    ensures a.chat(a.modelName, prompt).ChatFailed? ==>
      Answer(a, prompt).output == Apology && Answer(a, prompt).trace.failure == Some(ChatRaised)
  {
  }

  /**
   * The time header changes only the text forwarded: for a model that replies
   * alike with and without it, the same lookup is made, the follow-up chat is
   * made or not alike, and the same exception (if any) before the chat is caught.
   */
  lemma TimeContextKeepsRoute<H>(a: Assistant<H>, timestamp: string, prompt: string)
    requires a.invoke(WithTimeContext(timestamp, prompt)) == a.invoke(prompt)
    ensures var with := Answer(a, WithTimeContext(timestamp, prompt)).trace;
      var without := Answer(a, prompt).trace;
      with.query == without.query && with.followUp.Some? == without.followUp.Some?
      && (with.followUp.None? ==> with.failure == without.failure)
  {
  }

  /** `int("2024") == 2024` and `int("12") == 12`. */
  lemma ScenarioNumbers()
    ensures PyInt.ParseInt("2024") == Some(2024) && PyInt.ParseInt("12") == Some(12)
  {
    assert PyInt.Decimal(2) == "2";
    assert PyInt.Decimal(20) == "20";
    assert PyInt.Decimal(202) == "202";
    assert PyInt.Decimal(2024) == "2024";
    PyInt.ParseIntShow(2024);
    assert PyInt.Decimal(1) == "1";
    assert PyInt.Decimal(12) == "12";
    PyInt.ParseIntShow(12);
  }

  /**
   * `{state: "SP", year: "2024", month: "12"}` queries the service with ("SP", 2024, 12);
   * no holidays give "Nenhum feriado foi encontrado", some give the follow-up answer.
   */
  lemma HolidayScenario<H>(a: Assistant<H>, prompt: string, c: ToolCall)
    requires c == ToolCall(Some(HolidaysTool), Some(map["state" := "SP", "year" := "2024", "month" := "12"]))
    requires a.invoke(prompt) == Reply([c])
    ensures Answer(a, prompt).trace.query == Some(HolidayQuery("SP", 2024, 12))
    ensures a.getHolidays("SP", 2024, 12) == Holidays([]) ==>
      Answer(a, prompt).output == NothingFound && Answer(a, prompt).trace.followUp.None?
    ensures (a.getHolidays("SP", 2024, 12).Holidays? && |a.getHolidays("SP", 2024, 12).list| > 0
             && a.chat(a.modelName, FollowUpPrompt(prompt, a.render(a.getHolidays("SP", 2024, 12).list))).Text?) ==>
      Answer(a, prompt).output == a.chat(a.modelName, FollowUpPrompt(prompt, a.render(a.getHolidays("SP", 2024, 12).list))).content
  {
    var q := HolidayQuery("SP", 2024, 12);
    assert Examine(c) == Dispatch(q) by {
      assert AsksFor(c, q) by { ScenarioNumbers(); }
      ExamineDispatchIff(c, q);
    }
    assert IsFirstNotSkipped([c], 0);
    FirstDispatchDecides(a, prompt, 0, q);
  }

  /** Without `state`, the call is skipped and the plain chat sees the original prompt. */
  lemma MissingStateScenario<H>(a: Assistant<H>, prompt: string, c: ToolCall)
    requires c == ToolCall(Some(HolidaysTool), Some(map["year" := "2024", "month" := "12"]))
    requires a.invoke(prompt) == Reply([c])
    ensures Answer(a, prompt).trace == Trace(None, Some(prompt), if a.chat(a.modelName, prompt).ChatFailed? then Some(ChatRaised) else None)
  {
    var args := c.args.value;
    assert "year" in args && "state" !in args;
    assert CoercesOrAbsent(args, "year") && CoercesOrAbsent(args, "month") by {
      ScenarioNumbers();
    }
    GateClosedSkips(c);
  }

  /** A non-numeric `year` ("abc") is an `int()` failure even without `state`: the apology, no chat. */
  lemma NonNumericYearScenario<H>(a: Assistant<H>, prompt: string, c: ToolCall)
    requires c == ToolCall(Some(HolidaysTool), Some(map["year" := "abc", "month" := "12"]))
    requires a.invoke(prompt) == Reply([c])
    ensures Answer(a, prompt) == Run(Apology, Trace(None, None, Some(NotAnInteger)))
  {
    PyInt.ParseIntRejectsForeign("abc", 0);
    NonIntegerApologises(a, prompt, 0, "year");
  }
}
