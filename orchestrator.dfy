/**
 * The tool-call orchestration of the assistant "Melissa": one user prompt is
 * sent to a tool-bound chat model; the tool calls it asks for are validated
 * and at most one holiday lookup is dispatched. A non-empty holiday list goes
 * into a follow-up prompt for the plain chat call; an empty list returns
 * "Nenhum feriado foi encontrado" with no chat call; when every call is
 * skipped, the unchanged prompt goes to the plain chat call. Every exception
 * (including one from the holiday service) is turned into a fixed apology.
 *
 * The network, the model, the holiday service and the clock are not modelled:
 * their answers are the fields of an `Assistant` and a timestamp parameter.
 */
module Orchestrator {
  import opened Wrappers
  import PyInt

  /** Returned by the catch-all handler of `__run_llm`. */
  const Apology := "Desculpe, parece que houve um erro ao tentar responder. O que acha de reformular a pergunta?"
  /** Returned when a chat response's content is not a string. */
  const GenericErrorMessage := "Não foi possível encontrar uma resposta para a pergunta"
  /** Returned when the holiday lookup finds nothing. */
  const NothingFound := "Nenhum feriado foi encontrado"
  /** The one registered tool. */
  const HolidaysTool := "get_holidays"

  /** One entry of `result.tool_calls`: `.get('name')` and `.get('args')`, each possibly absent. */
  datatype ToolCall = ToolCall(name: Option<string>, args: Option<map<string, string>>)

  /**
   * What the tool-bound model's `invoke` gives back: a falsy result (or an
   * exception inside `invoke`, or a result with no `tool_calls` attribute at
   * all), or a result carrying its ordered tool calls. `tool_calls` that is
   * `None` or an empty list is the empty sequence: both raise the same error.
   */
  datatype ModelReply = NoResult | Reply(toolCalls: seq<ToolCall>)

  /** The holiday service's answer: the list of holidays, or an exception. */
  datatype ServiceReply<H> = Holidays(list: seq<H>) | ServiceFailed

  /** `ollama.chat(...)`: `message.content` is a string, is not one, or the call raises. */
  datatype ChatReply = Text(content: string) | NonText | ChatFailed

  /** The arguments of one dispatch of `get_holidays`. */
  datatype HolidayQuery = HolidayQuery(state: string, year: int, month: int)

  /** The exception that the catch-all handler logs before apologising. */
  datatype Failure =
    | NoResultFound      // "Resultado não encontrado"
    | NoToolCalls        // "Chamadas de função não encontradas"
    | MissingNameOrArgs  // "Argumentos ou nome da função não encontrados"
    | NotAnInteger       // ValueError from int() on year or month
    | ServiceRaised      // raised by the holiday service
    | ChatRaised         // raised by ollama.chat

  /**
   * What one answer did besides returning text: the holiday lookup it made,
   * the prompt it sent to the plain chat call, and the exception it caught.
   */
  datatype Trace = Trace(query: Option<HolidayQuery>, followUp: Option<string>, failure: Option<Failure>)

  datatype Run = Run(output: string, trace: Trace)

  /**
   * An assistant after `__init__`: its fields are set once and never updated.
   * `invoke` is the tool-bound model, `getHolidays` the holiday service, `render`
   * is `str()` on a list of holidays, and `chat(model, prompt)` is `ollama.chat`
   * with one user message.
   */
  datatype Assistant<!H> = Assistant(
    modelName: string,
    invoke: string -> ModelReply,
    getHolidays: (string, int, int) -> ServiceReply<H>,
    render: seq<H> -> string,
    chat: (string, string) -> ChatReply)

  /** Python truthiness of an optional string: present and non-empty. */
  predicate Truthy(s: Option<string>) {
    s.Some? && s.value != ""
  }

  /** `dict.get(key)`. */
  function Lookup(args: map<string, string>, key: string): Option<string> {
    if key in args then Some(args[key]) else None
  }

  /** `int(s) if s else None`: nothing to convert, a number, or `int()` raises. */
  datatype Coerced = Absent | Value(n: int) | Invalid

  function Coerce(s: Option<string>): (c: Coerced)
    ensures c.Invalid? <==> Truthy(s) && PyInt.ParseInt(s.value).None?
    ensures c.Value? ==> Truthy(s) && PyInt.ParseInt(s.value) == Some(c.n)
    ensures Truthy(s) && PyInt.ParseInt(s.value).Some? ==> c == Value(PyInt.ParseInt(s.value).value)
    ensures c.Absent? <==> !Truthy(s)
  {
    if !Truthy(s) then Absent
    else match PyInt.ParseInt(s.value)
      case None => Invalid
      case Some(n) => Value(n)
  }

  /** What examining one tool call leads to. */
  datatype Verdict = Skip | Malformed | BadNumber | Dispatch(query: HolidayQuery)

  /**
   * One iteration of the loop over the tool calls: the name/args check, the
   * coercion of `year` and `month` (before the gate) and the gate on
   * `state and year and month`. Other tool names are skipped.
   */
  function Examine(c: ToolCall): (v: Verdict)
    ensures !v.Malformed? ==> Truthy(c.name) && c.args.Some? && |c.args.value| > 0
    ensures v.Dispatch? ==>
      c.name == Some(HolidaysTool) && v.query.state != "" && v.query.year != 0 && v.query.month != 0
  {
    if c.args.None? || |c.args.value| == 0 || !Truthy(c.name) then Malformed
    else if c.name.value != HolidaysTool then Skip
    else
      var args := c.args.value;
      var state := Lookup(args, "state");
      var year := Coerce(Lookup(args, "year"));
      var month := Coerce(Lookup(args, "month"));
      if year.Invalid? || month.Invalid? then BadNumber
      else if Truthy(state) && year.Value? && year.n != 0 && month.Value? && month.n != 0 then
        Dispatch(HolidayQuery(state.value, year.n, month.n))
      else Skip
  }

  /** The verdict of the first tool call that is not skipped; `Skip` when all are. */
  function FirstVerdict(calls: seq<ToolCall>): (v: Verdict)
    ensures v.Skip? <==> forall i :: 0 <= i < |calls| ==> Examine(calls[i]).Skip?
  {
    if |calls| == 0 then Skip
    else if Examine(calls[0]).Skip? then FirstVerdict(calls[1..])
    else Examine(calls[0])
  }

  const QuestionLead := "Dada essa pergunta: '"
  const HolidaysLead := "', os feriados são: "
  const AnswerInstruction := ". Responda a pergunta de forma resumida e direta e como se estivesse conversando oralmente."

  /**
   * The prompt of the follow-up chat: the user's question and the rendered
   * holidays are embedded verbatim, each between fixed texts.
   */
  function FollowUpPrompt(prompt: string, rendered: string): (r: string)
    ensures |r| == |QuestionLead| + |prompt| + |HolidaysLead| + |rendered| + |AnswerInstruction|
    ensures r[..|QuestionLead|] == QuestionLead
    ensures r[|QuestionLead|..|QuestionLead| + |prompt|] == prompt
    ensures r[|QuestionLead| + |prompt|..|QuestionLead| + |prompt| + |HolidaysLead|] == HolidaysLead
    ensures r[|QuestionLead| + |prompt| + |HolidaysLead|..|r| - |AnswerInstruction|] == rendered
    ensures r[|r| - |AnswerInstruction|..] == AnswerInstruction
  {
    QuestionLead + prompt + HolidaysLead + rendered + AnswerInstruction
  }

  /** The result of the chat call that ends a turn. */
  function ChatOutcome(reply: ChatReply, query: Option<HolidayQuery>, followUp: string): (r: Run)
    ensures r.trace.query == query && r.trace.followUp == Some(followUp)
    ensures reply.Text? ==> r.output == reply.content && r.trace.failure.None?
    ensures reply.NonText? ==> r.output == GenericErrorMessage && r.trace.failure.None?
    ensures reply.ChatFailed? ==> r.output == Apology && r.trace.failure == Some(ChatRaised)
  {
    match reply
    case Text(s) => Run(s, Trace(query, Some(followUp), None))
    case NonText => Run(GenericErrorMessage, Trace(query, Some(followUp), None))
    case ChatFailed => Run(Apology, Trace(query, Some(followUp), Some(ChatRaised)))
  }

  /** After a dispatch: "nothing found", or the follow-up chat over the rendered list. */
  function AfterDispatch<H>(a: Assistant<H>, prompt: string, q: HolidayQuery): (r: Run)
    ensures r.trace.query == Some(q)
    ensures r.trace.followUp.Some? <==>
      a.getHolidays(q.state, q.year, q.month).Holidays? && |a.getHolidays(q.state, q.year, q.month).list| > 0
    ensures a.getHolidays(q.state, q.year, q.month) == Holidays([]) ==> r.output == NothingFound
  {
    match a.getHolidays(q.state, q.year, q.month)
    case ServiceFailed => Run(Apology, Trace(Some(q), None, Some(ServiceRaised)))
    case Holidays(list) =>
      if |list| == 0 then Run(NothingFound, Trace(Some(q), None, None))
      else
        var reInput := FollowUpPrompt(prompt, a.render(list));
        ChatOutcome(a.chat(a.modelName, reInput), Some(q), reInput)
  }

  /**
   * The answer `__run_llm` gives to `prompt`, with what it did on the way.
   * It is always the content of the chat call it made, the generic error
   * message, "nothing found" or the apology; every caught exception yields
   * the apology; and the plain chat is called only when no exception came
   * before it.
   */
  function Answer<H>(a: Assistant<H>, prompt: string): (r: Run)
    ensures r.output == Apology || r.output == NothingFound || r.output == GenericErrorMessage
         || (r.trace.followUp.Some? && a.chat(a.modelName, r.trace.followUp.value) == Text(r.output))
    ensures r.trace.failure.Some? ==> r.output == Apology
    ensures r.trace.followUp.Some? ==> r.trace.failure.None? || r.trace.failure == Some(ChatRaised)
  {
    match a.invoke(prompt)
    case NoResult => Run(Apology, Trace(None, None, Some(NoResultFound)))
    case Reply(calls) =>
      if |calls| == 0 then Run(Apology, Trace(None, None, Some(NoToolCalls)))
      else match FirstVerdict(calls)
        case Malformed => Run(Apology, Trace(None, None, Some(MissingNameOrArgs)))
        case BadNumber => Run(Apology, Trace(None, None, Some(NotAnInteger)))
        case Dispatch(q) => AfterDispatch(a, prompt, q)
        case Skip => ChatOutcome(a.chat(a.modelName, prompt), None, prompt)
  }

  /**
   * `Assistant.__run_llm`: the loop over the tool calls with its early
   * returns, the exceptions turned into the apology.
   */
  method RunLlm<H>(a: Assistant<H>, promptInput: string) returns (answer: string, ghost trace: Trace)
    ensures answer == Answer(a, promptInput).output
    ensures trace == Answer(a, promptInput).trace
  {
    var result := a.invoke(promptInput);
    if result.NoResult? {
      return Apology, Trace(None, None, Some(NoResultFound));
    }
    var toolCalls := result.toolCalls;
    if |toolCalls| == 0 {
      return Apology, Trace(None, None, Some(NoToolCalls));
    }
    var i := 0;
    while i < |toolCalls|
      invariant 0 <= i <= |toolCalls|
      invariant FirstVerdict(toolCalls) == FirstVerdict(toolCalls[i..])
    {
      var toolCall := toolCalls[i];
      assert toolCalls[i..][0] == toolCall && toolCalls[i..][1..] == toolCalls[i + 1..];
      var functionName := toolCall.name;
      var functionParameters := toolCall.args;
      if functionParameters.None? || |functionParameters.value| == 0 || !Truthy(functionName) {
        assert FirstVerdict(toolCalls) == Malformed;
        return Apology, Trace(None, None, Some(MissingNameOrArgs));
      }
      if functionName.value == HolidaysTool {
        var args := functionParameters.value;
        var state := Lookup(args, "state");
        var year := Coerce(Lookup(args, "year"));
        if year.Invalid? {
          assert FirstVerdict(toolCalls) == BadNumber;
          return Apology, Trace(None, None, Some(NotAnInteger));
        }
        var month := Coerce(Lookup(args, "month"));
        if month.Invalid? {
          assert FirstVerdict(toolCalls) == BadNumber;
          return Apology, Trace(None, None, Some(NotAnInteger));
        }
        if Truthy(state) && year.Value? && year.n != 0 && month.Value? && month.n != 0 {
          var query := HolidayQuery(state.value, year.n, month.n);
          assert FirstVerdict(toolCalls) == Dispatch(query);
          assert Answer(a, promptInput) == AfterDispatch(a, promptInput, query);
          trace := Trace(Some(query), None, None);
          var holidays := a.getHolidays(state.value, year.n, month.n);
          if holidays.ServiceFailed? {
            return Apology, trace.(failure := Some(ServiceRaised));
          }
          if |holidays.list| == 0 {
            return NothingFound, trace;
          }
          var reInput := FollowUpPrompt(promptInput, a.render(holidays.list));
          trace := trace.(followUp := Some(reInput));
          var chatResponse := a.chat(a.modelName, reInput);
          match chatResponse {
            case Text(content) => return content, trace;
            case NonText => return GenericErrorMessage, trace;
            case ChatFailed => return Apology, trace.(failure := Some(ChatRaised));
          }
        }
      }
      i := i + 1;
    }
    // Generic answer: no tool call was dispatched.
    trace := Trace(None, Some(promptInput), None);
    var chatResponse := a.chat(a.modelName, promptInput);
    match chatResponse {
      case Text(content) => answer := content;
      case NonText => answer := GenericErrorMessage;
      case ChatFailed => answer, trace := Apology, trace.(failure := Some(ChatRaised));
    }
  }

  /** The header `get_ai_output` puts before the user's prompt. */
  function TimeContext(timestamp: string): string {
    "[Metadata: Data e hora atual: " + timestamp + "]\n---\n"
  }

  /** The prompt `get_ai_output` forwards: the header, then the user's prompt unchanged. */
  function WithTimeContext(timestamp: string, prompt: string): (r: string)
    ensures |r| == |TimeContext(timestamp)| + |prompt|
    ensures r[|r| - |prompt|..] == prompt
    ensures r[..|r| - |prompt|] == TimeContext(timestamp)
  {
    TimeContext(timestamp) + prompt
  }

  /**
   * `Assistant.get_ai_output`: the clock reading `datetime.now()` formatted as
   * "%d/%B/%Y %H:%M:%S" is the parameter `timestamp`.
   */
  method GetAiOutput<H>(a: Assistant<H>, timestamp: string, prompt: string)
    returns (answer: string, ghost trace: Trace)
    ensures answer == Answer(a, WithTimeContext(timestamp, prompt)).output
    ensures trace == Answer(a, WithTimeContext(timestamp, prompt)).trace
  {
    var timeContext := TimeContext(timestamp);
    answer, trace := RunLlm(a, timeContext + prompt);
  }
}
