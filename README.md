# Alex e-commerce chatbot: metrics recorder, response humanizer, tool registry

This project models the deterministic core of the "Alex" e-commerce chatbot in Dafny and proves properties about it.

- **The agent's per-turn metrics recorder** (`Agent.EcommerceAgent`). The class keeps the metrics record as fields.
  - Fields: five counters, a usage count per registered tool, and the append-only interaction log.
  - `RunAgent` updates these fields in place for one user turn.
  - The per-tool counts are made in a loop (`CountToolUsage`).
  - It has two exception paths: the executor fails, or a tool name is not pre-seeded in the usage map.
  - Every method is proved against the value-level specification `Metrics.Turn`.
  - `RunAgent` also keeps the class invariant `Valid`. This says the record is consistent with its log:
    - one interaction per query;
    - the success, fallback and multi-tool counters equal what the log shows;
    - context retention, which the log does not record, is bounded by the turns that did not fall back;
    - the usage map holds exactly the registered tools, with their counted uses.
  - `GetMetrics` returns the report. This is a copy of the record plus three percentage rates.
- **The response humanizer** (`Humanizer.Humanize`). It rewrites the executor's answer by rules applied in order:
  - a blank answer gets the clarifying question;
  - an answer mentioning "error" gets the customer-ID prompt or the "more info" prefix;
  - any other answer gets a topic follow-up from an ordered table, then its formal opening softened by an ordered replacement table.
- **The tool registry** (`Tools.Registry`):
  - 11 named tools, each pointing at the data-store operation it delegates to, with the arguments its adapter fixes;
  - the case-insensitive, priority-ordered weather clothing classifier (`Tools.WeatherRecommendation`).

The modules are `Wrappers`, `Text`, `Tools`, `Humanizer`, `Metrics` and `Agent`:

- `Text` models the Python `str` operations that the code relies on: `lower`, `capitalize`, `strip() == ""`, `in`, `startswith` and `replace`. It also defines an ASCII `Upper`, used only to state that the weather classifier ignores letter case.
- The agent executor's result for a turn is an input, `Metrics.ExecutorOutcome`. It is either a failure with its message, or the output text with the optional tool names of the intermediate steps.

Behaviour of the code the model keeps:

- The follow-up guard tests for a "?" anywhere in the answer, not at its end. The guard is re-checked on the growing answer, and every follow-up sentence holds a "?". So at most one follow-up is ever appended (`Humanizer.AppendFollowUpsAtMostOne`); follow-ups do not stack.
- A follow-up for loyalty is appended only when the lower-cased query contains "loyalty". A query such as "What are my points for customer C001?" gets none.
- Success is judged on the humanized answer. So two kinds of answer count as successful resolutions:
  - the customer-ID prompt;
  - a "more info" answer whose only "error" was a lower-case "error:" that got removed.

  The model keeps this behaviour (`Metrics.TurnCompleted`).

## Model

| member | source | states |
|---|---|---|
| Text.Lower | agent.py:133 | `lower()` keeps the length and maps each character to its lower-case form |
| Text.LowerIdempotent | tools.py:42 | lower-casing an already lower-cased text changes nothing |
| Text.Capitalize | agent.py:136 | `capitalize()`: same length, first character upper-cased, all the rest lower-cased |
| Text.CapitalizeIdempotent | agent.py:136 | capitalizing an already capitalized text changes nothing |
| Text.ReplaceAllAbsent | agent.py:156 | `replace` of a pattern that does not occur leaves the text unchanged |
| Text.ReplaceAllKeeps | agent.py:156 | a character that is not in the pattern and occurs in the text still occurs after `replace` |
| Text.ReplaceAllLeading | agent.py:155-156 | a text that starts with the pattern starts with the replacement after `replace` |
| Tools.RegistryShape | tools.py:55-111 | the registry holds exactly 11 tools with pairwise distinct names |
| Tools.NameSetSize | tools.py:55-111 | the set of registered names has 11 elements, one per tool |
| Tools.FindFrom | tools.py:55-111 | a by-name lookup returns an entry of the list that bears the name, or None only when no entry bears it |
| Tools.LookupRegistered | tools.py:55-111 | a registered name resolves to the very registry entry bearing it |
| Tools.LookupFindsRegistered | tools.py:55-111 | the lookup finds a tool if and only if the name is registered |
| Tools.Resolve | tools.py:61-85 | a tool call goes to the tool's target operation with the caller's input followed by exactly the adapter's fixed arguments |
| Tools.CancelOrderAdapter | tools.py:61-65 | "CancelOrder" calls `update_order` with the given order id and status "canceled" |
| Tools.ProcessReturnAdapter | tools.py:66-70 | "ProcessReturn" calls `update_order` with the given order id and status "returned" |
| Tools.RecommendIsSearch | tools.py:71-85 | "RecommendProducts" on a category is the same call as "SearchProducts" on it: `search_products(category)` |
| Tools.WeatherRecommendation | tools.py:40-52 | the answer is always one of the five fixed texts |
| Tools.WeatherIgnoresCase | tools.py:42 | the answer is the same for the lower-cased and the upper-cased condition |
| Tools.WeatherClassification | tools.py:43-52 | each of the five texts is given if and only if its keyword rule holds and no earlier rule does: rain/drizzle, then cloudy, sunny, clear, else the default |
| Tools.RainHasPriority | tools.py:43-44 | a condition mentioning rain or drizzle in any case gets the rain text whatever is added before or after it |
| Humanizer.FirstMatch | agent.py:138-146 | the follow-up of a row whose key occurs in the query and no earlier row's key does, i.e. the first matching row; None exactly when no key occurs |
| Humanizer.FollowUpsAsk | agent.py:138-142 | every follow-up sentence contains a "?" |
| Humanizer.AppendFollowUpsAtMostOne | agent.py:144-146 | the follow-up loop appends exactly the sentence of the first matching key when the answer has no "?", and nothing otherwise |
| Humanizer.FollowUpsIdempotent | agent.py:144-146 | running the follow-up loop again on its own output appends nothing |
| Humanizer.FollowUpOrder | agent.py:138-146 | the priority "order status", then "product", then "loyalty", and no follow-up when none occurs |
| Humanizer.SoftenInformal | agent.py:154-156 | an answer opening with no formal phrase is left unchanged by the replacement loop |
| Humanizer.SoftenOpening | agent.py:148-156 | an answer opening with a formal phrase ends up opening with its friendly phrase; only that row fires, replacing every occurrence |
| Humanizer.HumanizeBlank | agent.py:130-131 | an empty or whitespace-only answer yields the clarifying question |
| Humanizer.HumanizeFailure | agent.py:133-136 | an answer mentioning "error" in any case yields the customer-ID prompt for a loyalty query, else the "more info" prefix plus the answer with "error:" removed and capitalized |
| Humanizer.HumanizeRegular | agent.py:138-158 | any other answer gets at most one follow-up and then the replacement table |
| Humanizer.SoftenKeepsQuestion | agent.py:154-156 | the replacement loop keeps a "?" in the answer, since no formal phrase contains one |
| Humanizer.HumanizeTwiceAddsNoFollowUp | agent.py:138-158 | a humanized regular answer, run through the follow-up loop again for the same query, gets no second follow-up |
| Metrics.Initial | agent.py:21-32 | a fresh record: all five counters zero, empty log, usage map keyed by exactly the 11 registered names, each at zero |
| Metrics.InitialConsistent | agent.py:21-32 | the fresh record satisfies the record invariant |
| Metrics.FirstUnknown | agent.py:92-93 | the index where the increment raises `KeyError`: every earlier name is a key and the name there is not |
| Metrics.AddCounts | agent.py:92-93 | incrementing counts keeps the set of keys |
| Metrics.AddCountsTally | agent.py:92-93 | each name's count rises by its number of occurrences in the list, duplicates counted |
| Metrics.WindowStart | agent.py:99 | `chat_history[-3:]` covers the last three messages, or all of a shorter history |
| Metrics.CountsBounded | agent.py:104-125 | over a log where no success has an error, successes plus fallbacks and multi-tool turns plus fallbacks are each at most the log length |
| Metrics.ConsistentBounds | agent.py:68-126 | in a consistent record every counter is at most `total_queries` |
| Metrics.FailurePreservesConsistency | agent.py:122-126 | an executor failure keeps the record invariant |
| Metrics.ReturnedPreservesConsistency | agent.py:87-126 | a turn whose executor returned keeps the record invariant, on the completed and on the `KeyError` path |
| Metrics.TurnPreservesConsistency | agent.py:68-126 | every turn keeps the record invariant |
| Metrics.TurnLogsOnce | agent.py:68-126 | every turn raises `total_queries` by one and appends exactly one interaction, for the query, keeping the earlier log |
| Metrics.TurnExecutorFailure | agent.py:122-126 | an executor failure counts a fallback, logs the error, returns the apology and changes no other counter |
| Metrics.TurnUnknownTool | agent.py:89-125 | an unregistered tool name sends the turn to the fallback with the `KeyError` text; counts made for earlier names are kept |
| Metrics.TurnToolUsage | agent.py:89-96 | with registered tools, each count rises by its occurrences, and a multi-tool episode is counted if and only if more than one tool was used |
| Metrics.TurnCompleted | agent.py:98-106 | a completed turn answers with the humanized output; success and context retention each rise by one if and only if their test holds |
| Metrics.EmptyContentRetains | agent.py:99-100 | an empty message among the last three always counts as retained context |
| Metrics.ContextIgnoresOlder | agent.py:99 | messages older than the last three never affect context retention |
| Metrics.TwoToolTurn | agent.py:89-96 | a turn using two distinct registered tools counts one multi-tool episode and one use of each |
| Metrics.SessionConsistent | agent.py:68-126 | after any sequence of turns the record is consistent, with one interaction per query |
| Metrics.RateBounds | agent.py:163-166 | a rate of a count at most the total is a percentage in [0, 100], 0 for no queries, and count / total × 100 otherwise |
| Metrics.ReportRates | agent.py:160-175 | the three rates of a consistent record are percentages equal to count / total × 100 |
| Agent.EcommerceAgent.constructor | agent.py:21-32 | the new agent holds the fresh record and satisfies the invariant |
| Agent.EcommerceAgent.CountToolUsage | agent.py:92-93 | the loop increments counts name by name and stops at the first unregistered name, whose index it returns |
| Agent.EcommerceAgent.RecordFallback | agent.py:122-126 | the exception handler counts a fallback, appends the interaction with the error and returns the apology |
| Agent.EcommerceAgent.TrackTools | agent.py:89-96 | tool counting, plus a multi-tool episode when all tools were counted and there were more than one |
| Agent.EcommerceAgent.FinishTurn | agent.py:98-120 | context retention, humanizing, success and the log entry, as the specification's completed turn |
| Agent.EcommerceAgent.HandleReturned | agent.py:87-126 | the turn after the executor returned, as the specification's `Returned` |
| Agent.EcommerceAgent.ProcessTurn | agent.py:68-126 | the body of the turn, with no invariant required: the new record and the answer are those of the specification `Turn` |
| Agent.EcommerceAgent.RunAgent | agent.py:68-126 | the turn as `ProcessTurn` does it, keeping the record invariant |
| Agent.EcommerceAgent.GetMetrics | agent.py:160-175 | the report copies the record unchanged and adds three rates in [0, 100]: 0 with no queries, otherwise count / total × 100 |

## Left out

- The language model, its prompt and the agent executor are foreign library code (agent.py:13-18, 34-66, 87). So is the executor's bounded tool-calling loop (`max_iterations=5`). The executor's result is an input to each turn.
- Clock reads, the per-interaction timestamp and response time, the `avg_response_time` running mean, the token-usage probe and `session_start` are not modelled. They are clock reads, floating point and library reflection (agent.py:28-30, 69, 72, 108-117).
- The interaction log entries carry only the query, success flag, tools used and error. The timestamp, response time and token fields are dropped with the clock.
- `get_weather` is not modelled: it makes an HTTP request and reads environment configuration (tools.py:9-38).
- The data-store operations (`get_order`, `update_order`, `search_products`, `get_product`, `get_customer`, `update_customer_preferences`, `get_loyalty_points`) live in `mock_data`, which is not part of this model. The registry names them by `Tools.Target` only.
- The Streamlit interface in main.py is presentation and I/O, and is not modelled.
- Text.Lower: case mapping is ASCII only; Python also lower-cases non-ASCII letters. Every literal the code compares with is ASCII.
- Text.Capitalize: ASCII only; Python's `capitalize` also title-cases a non-ASCII first character and lower-cases non-ASCII letters.
- Metrics.RateBounds: rates are exact reals. The float rounding of `count / total * 100` is not modelled.
- Metrics.KeyErrorMessage: the text of `str(KeyError(name))` is modelled as the name in single quotes. Python's `repr` quoting of names that contain quotes or escapes is not modelled.
- An executor result without an `"output"` entry is not modelled. In Python, `result["output"]` (agent.py:102) raises `KeyError` in the `try` body, after the tools and context retention were counted, and the handler at agent.py:122-126 takes the turn. Here the output is always text. A result without `intermediate_steps` is modelled, as `None`.
- Agent.EcommerceAgent.GetMetrics: `self.metrics.copy()` (agent.py:162) is a shallow copy, so the returned report shares the live `tool_usage` map and `interactions` list with the agent. The model's `Report` holds independent values, so this aliasing is not modelled: a caller mutating the report would change the agent's record in Python, but not in the model.
- An executor returning a step whose tool name is not a string is not modelled; tool names are strings.
- The arity of `update_customer_preferences` (customer ID and preference) behind a single-input tool is not modelled.
