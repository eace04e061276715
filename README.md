# Melissa: tool-call dispatch of the assistant

This project models the core of the assistant "Melissa" (`Src/Server/AiAssistant/Assistant.py`).
`get_ai_output` puts a time header before the user's question. It then hands the question to `__run_llm`, which does the following:

- It asks a tool-bound chat model for a result.
- It walks the model's tool calls in order.
- Each call must have a name and non-empty arguments.
- For `get_holidays`, it converts `year` and `month` with `int()` and gates the lookup on `state and year and month`.
- At most one holiday lookup is made. A non-empty list goes into a follow-up prompt for the plain chat call. An empty list returns "Nenhum feriado foi encontrado" with no chat call.
- When every call is skipped, the unchanged question goes to the plain chat call.
- Every exception becomes a fixed apology.

Files:

- `wrappers.dfy`: `Option`, which stands for Python's `None` or a value.
- `pyint.dfy`: Python's `int(s)` on a string, and `str(i)` on an integer; `int(str(i)) == i` is proved for every integer of at most 4300 digits.
- `orchestrator.dfy`: the `Assistant` value and the reference function `Answer`.
  - An `Assistant` holds what `__init__` sets once: the model name, the tool-bound model and the holiday service. It also carries two oracles that are not fields of the Python object: `str()` of a holiday list and `ollama.chat`. All four behaviours are fields of function type.
  - `Answer` gives the answer text together with a `Trace`. The trace records the holiday lookup made, the prompt sent to the plain chat, and the exception the catch-all logged.
  - The method `RunLlm` models `__run_llm` as written: a loop over the tool calls with early returns. It is proved to compute `Answer`.
  - The method `GetAiOutput` models `get_ai_output`.
- `properties.dfy`: the properties of `Answer`, plus three concrete scenarios (a holiday lookup with an empty and with a non-empty result, state missing, year "abc").

Python's exceptions are explicit values. A falsy result from `invoke` is `NoResult`. The holiday service may answer `ServiceFailed`. The chat call may answer `ChatFailed`. Each of these leads to the apology, and `Trace.failure` says which kind of failure it was (see "## Left out" for the cases folded together).

In these places the model follows the code as written, where one might expect otherwise:

- A model result with no tool calls raises "Chamadas de função não encontradas" and returns the apology. It does not fall through to the plain chat.
- The tool name is compared with `"get_holidays"`. It is not looked up in the function table.
- Non-string chat content returns "Não foi possível encontrar uma resposta para a pergunta". This is a different string from the apology.
- `int()` runs on `year` and `month` before the gate. A non-numeric `year` therefore yields the apology even when `state` is missing.

Two things hold by construction rather than by a lemma:

- Repeated calls with the same inputs give the same answer, because `Answer` is a function and the `Assistant` fields never change.
- No exception escapes `__run_llm`, because every path of `Answer` returns a string.

## Model

| member | source | states |
|---|---|---|
| PyInt.ParseInt | Src/Server/AiAssistant/Assistant.py:90-91 | `int()` gives a number only for a non-blank string, and a negative one only after a leading minus sign; specified further by ParseIntShow and ParseIntRejectsForeign |
| PyInt.ParseIntShow | Src/Server/AiAssistant/Assistant.py:90-91 | `int()` accepts the decimal rendering of every integer of at most 4300 digits, sign included, and returns that integer; for a longer one it raises |
| PyInt.ParseIntRejectsForeign | Src/Server/AiAssistant/Assistant.py:90-91 | a string with any character other than digits, whitespace, signs and `_` (such as "abc") makes `int()` raise |
| PyInt.TrimLeftSuffix | Src/Server/AiAssistant/Assistant.py:90-91 | the whitespace `int()` strips in front is only whitespace, and the rest is kept unchanged |
| PyInt.TrimRightPrefix | Src/Server/AiAssistant/Assistant.py:90-91 | the whitespace `int()` strips at the end is only whitespace, and the rest is kept unchanged |
| Orchestrator.Coerce | Src/Server/AiAssistant/Assistant.py:90-91 | `int(s) if s else None`: gives `None` exactly when `s` is missing or empty, raises exactly when `s` is non-empty and `int()` rejects it, and gives `int(s)` when `int()` accepts it |
| Orchestrator.Examine | Src/Server/AiAssistant/Assistant.py:76-92 | a call that gets past the name/args check has a non-empty name and non-empty arguments; a dispatch is only for `get_holidays` with a non-empty state and non-zero year and month |
| Orchestrator.FirstVerdict | Src/Server/AiAssistant/Assistant.py:76-92 | the loop ends without a dispatch or an exception exactly when every call alone is skipped |
| Orchestrator.FollowUpPrompt | Src/Server/AiAssistant/Assistant.py:98-101 | the follow-up prompt is the fixed opening, the question verbatim, the fixed text before the holidays, the rendered holiday list verbatim and the fixed closing instruction, each at its offset |
| Orchestrator.ChatOutcome | Src/Server/AiAssistant/Assistant.py:103-107 | string content is returned verbatim, other content gives the generic error message, and a raising chat gives the apology |
| Orchestrator.AfterDispatch | Src/Server/AiAssistant/Assistant.py:93-107 | after a lookup, the follow-up chat is made exactly when the list is non-empty; an empty list gives "Nenhum feriado foi encontrado" |
| Orchestrator.Answer | Src/Server/AiAssistant/Assistant.py:59-119 | the answer is always the chat content, the generic error message, "Nenhum feriado foi encontrado" or the apology; a caught exception always gives the apology; the plain chat is only called when no exception came first |
| Orchestrator.RunLlm | Src/Server/AiAssistant/Assistant.py:59-119 | the loop with its early returns computes exactly `Answer`: the same text, the same lookup, the same follow-up prompt and the same caught exception |
| Orchestrator.WithTimeContext | Src/Server/AiAssistant/Assistant.py:20-21 | the forwarded prompt is the time header followed by the user's prompt, unchanged, as a suffix |
| Orchestrator.GetAiOutput | Src/Server/AiAssistant/Assistant.py:19-21 | `get_ai_output` answers as `__run_llm` does on the prompt with the time header in front |
| AnswerProperties.FirstVerdictAt | Src/Server/AiAssistant/Assistant.py:76-92 | the first call that the loop does not skip decides the outcome of the loop |
| AnswerProperties.FirstVerdictFrom | Src/Server/AiAssistant/Assistant.py:76-92 | conversely, every verdict other than "skip" comes from the first call the loop does not skip |
| AnswerProperties.FirstVerdictAppend | Src/Server/AiAssistant/Assistant.py:76-107 | calls after the first one not skipped are never examined: appending calls changes nothing unless every earlier call is skipped |
| AnswerProperties.ExamineDispatchIff | Src/Server/AiAssistant/Assistant.py:86-93 | a call dispatches `(state, year, month)` if and only if it is `get_holidays`, `state` is a non-empty string, and `int()` gives non-zero `year` and `month` |
| AnswerProperties.ExamineRejectsNonInteger | Src/Server/AiAssistant/Assistant.py:88-92 | coercion comes before the gate: a non-empty `year` or `month` that `int()` rejects fails the call, whatever `state` is |
| AnswerProperties.GateClosedSkips | Src/Server/AiAssistant/Assistant.py:86-92 | a `get_holidays` call whose arguments convert, but whose state is missing or empty, or whose year or month is missing or zero, is skipped |
| AnswerProperties.OtherToolSkipped | Src/Server/AiAssistant/Assistant.py:83-86 | a well-formed call to any other tool is skipped |
| AnswerProperties.ApologyWithoutToolCalls | Src/Server/AiAssistant/Assistant.py:66-72 | a falsy model result, or one with no tool calls, gives the apology; no lookup and no chat call are made |
| AnswerProperties.MalformedCallApologises | Src/Server/AiAssistant/Assistant.py:76-81 | a call with a missing or empty name or arguments, reached before any dispatch, gives the apology |
| AnswerProperties.NonIntegerApologises | Src/Server/AiAssistant/Assistant.py:88-91 | a `get_holidays` call with a non-numeric `year` or `month`, reached before any dispatch, gives the apology, with or without `state` |
| AnswerProperties.FirstDispatchDecides | Src/Server/AiAssistant/Assistant.py:92-107 | the first call past the gate queries the service once with its arguments; an empty list gives "Nenhum feriado foi encontrado" with no chat call; a non-empty list sends the follow-up prompt to the chat and returns its outcome |
| AnswerProperties.LaterCallsIgnored | Src/Server/AiAssistant/Assistant.py:76-107 | two model results that agree up to and including the first call not skipped give the same answer and trace |
| AnswerProperties.NoDispatchChatsOnPrompt | Src/Server/AiAssistant/Assistant.py:110-115 | when every call is skipped, the plain chat gets the unchanged prompt; string content is returned verbatim, other content gives the generic error message, and a raising chat gives the apology |
| AnswerProperties.TimeContextKeepsRoute | Src/Server/AiAssistant/Assistant.py:19-21 | the time header changes only the forwarded text: the same lookup and the same follow-up decision, for a model that replies alike with and without it |
| AnswerProperties.HolidayScenario | Src/Server/AiAssistant/Assistant.py:86-96 | `{state: "SP", year: "2024", month: "12"}` queries the service with ("SP", 2024, 12); an empty list then gives "Nenhum feriado foi encontrado" and no chat call; a non-empty list whose follow-up chat answers with text gives that text |
| AnswerProperties.MissingStateScenario | Src/Server/AiAssistant/Assistant.py:87-113 | without `state`, the call is skipped and the plain chat receives the original prompt |
| AnswerProperties.NonNumericYearScenario | Src/Server/AiAssistant/Assistant.py:88-92 | `year: "abc"` without `state` gives the apology with an `int()` failure, and no chat call |

## Left out

- The console loop in `Src/Server/ConsoleApp/main.py` reads from stdin, writes to stdout and stops on "sair". It is pure I/O.
- `__get_tools` reads and parses `tools.json`, and `__config_model` builds the `ChatOllama` model with `bind_tools`. Both are startup I/O and library setup. The bound model's `invoke` is the field `Assistant.invoke`.
- `ollama.chat` in `__get_response_from_model` is a network call. It is the field `Assistant.chat`, applied to the model name and the prompt.
- `HolidayService.get_holidays` and the `Holiday` type are not part of this model. The service is the field `getHolidays`, and the type is the type parameter `H`. `use_online_sources` only chooses which service is used, so it is part of that field.
- `str(holidays_list)` is the field `render`. How Python prints a list of holidays is not modelled.
- `datetime.now().strftime("%d/%B/%Y %H:%M:%S")` reads the clock and the locale. The formatted timestamp is a parameter of `GetAiOutput`.
- The `print` of the caught exception is a side effect. The model records which exception was caught in `Trace.failure`, but not the printed message.
- PyInt.ParseInt: handles ASCII whitespace, one sign, and decimal digits with single underscores between digits. It rejects more than 4300 digits, which is Python's default limit. It does not model the Unicode whitespace and the non-ASCII decimal digits that Python's `int()` also accepts. It also does not model a digit limit changed through `sys.set_int_max_str_digits` or `PYTHONINTMAXSTRDIGITS`.
- Tool-call arguments are modelled as a map from strings to strings, as the source annotates them. Non-string argument values that a model might send are not modelled.
- Exceptions from unexpected object shapes are not modelled separately. A result object with no `tool_calls` attribute raises AttributeError; it is modelled as the falsy result `NoResult`. A chat response without `message` is modelled as `ChatFailed`. Both end in the same apology as in the source. `tool_calls` that is present but `None` or empty is the empty sequence `Reply([])`, recorded as `NoToolCalls`.
- An exception raised inside the bound model's `invoke` is folded into `NoResult`. `Trace.failure` then records `NoResultFound`, although the source logs the exception that `invoke` raised rather than "Resultado não encontrado".
