/**
  The agent's metrics record as a value, and what one user turn does to it.
  The agent executor (the language model and its tool-calling rounds) is
  not modelled: its result for the turn is an input, `ExecutorOutcome`.
  `Turn` is the specification the agent's `RunAgent` method is proved
  against; the lemmas below state what a turn promises and that the record
  stays consistent across any sequence of turns.
 */
module Metrics {
  import opened Wrappers
  import opened Text
  import Tools
  import Humanizer

  /** One entry of the chat history handed to the agent; only `content` is read. */
  datatype Role = Human | Assistant
  datatype ChatMessage = ChatMessage(role: Role, content: string)

  /**
    What the executor produced for the turn: it raised, or it returned its
    output text and, when present, the tool name of each intermediate step.
   */
  datatype ExecutorOutcome =
    | ExecutorFailed(message: string)
    | ExecutorReturned(output: string, intermediateSteps: Option<seq<string>>)

  /** The record appended for every turn; `error` is the text of the exception, if any. */
  datatype Interaction = Interaction(query: string, success: bool, toolsUsed: seq<string>, error: Option<string>)

  datatype MetricsState = MetricsState(
    totalQueries: nat,
    successfulResolutions: nat,
    toolUsage: map<string, nat>,
    fallbackResponses: nat,
    multiToolEpisodes: nat,
    contextRetentionScore: nat,
    interactions: seq<Interaction>)

  datatype TurnResult = TurnResult(state: MetricsState, response: string)

  const FallbackText: string :=
    "\U{1F605} Oops! I'm having trouble understanding. Could you try asking differently?"

  /** The registered tool names, the keys of the usage map. */
  function ToolNameSet(): set<string> {
    set n | n in Tools.ToolNames()
  }

  /** The record of a fresh agent: every counter zero, every registered tool counted at zero. */
  function Initial(): (s: MetricsState)
    ensures s.toolUsage.Keys == ToolNameSet() && |s.toolUsage| == 11
    ensures forall n :: n in s.toolUsage ==> s.toolUsage[n] == 0
    ensures s.totalQueries == 0 && s.successfulResolutions == 0 && s.fallbackResponses == 0
    ensures s.multiToolEpisodes == 0 && s.contextRetentionScore == 0
    ensures s.interactions == []
  {
    Tools.NameSetSize();
    var usage := map n | n in ToolNameSet() :: 0;
    assert usage.Keys == ToolNameSet();
    MetricsState(0, 0, usage, 0, 0, 0, [])
  }

  /** The text of the `KeyError` raised for an unregistered tool name: the name in quotes. */
  function KeyErrorMessage(name: string): string {
    "'" + name + "'"
  }

  /** The index of the first name that is not a key: where a `KeyError` is raised. */
  function FirstUnknown(keys: set<string>, names: seq<string>): (k: nat)
    ensures k <= |names|
    ensures forall i :: 0 <= i < k ==> names[i] in keys
    ensures k < |names| ==> names[k] !in keys
  {
    if names == [] || names[0] !in keys then 0
    else 1 + FirstUnknown(keys, names[1..])
  }

  /** The usage map after incrementing the count of each name in turn. */
  function AddCounts(usage: map<string, nat>, names: seq<string>): (r: map<string, nat>)
    requires forall i :: 0 <= i < |names| ==> names[i] in usage
    ensures r.Keys == usage.Keys
  {
    if names == [] then usage
    else
      var before := AddCounts(usage, names[..|names| - 1]);
      var last := names[|names| - 1];
      before[last := before[last] + 1]
  }

  /** Every name's count rises by its number of occurrences, duplicates included. */
  lemma {:induction false} AddCountsTally(usage: map<string, nat>, names: seq<string>)
    requires forall i :: 0 <= i < |names| ==> names[i] in usage
    ensures forall n :: n in usage ==> AddCounts(usage, names)[n] == usage[n] + multiset(names)[n]
  {
    if names != [] {
      var init := names[..|names| - 1];
      AddCountsTally(usage, init);
      assert names == init + [names[|names| - 1]];
      assert multiset(names) == multiset(init) + multiset{names[|names| - 1]};
    }
  }

  /** Where `chat_history[-3:]` starts: the last three messages, or all of a shorter history. */
  function WindowStart(history: seq<ChatMessage>): (j: nat)
    ensures j <= |history| && |history| - j == if |history| <= 3 then |history| else 3
  {
    if |history| <= 3 then 0 else |history| - 3
  }

  /** The context heuristic: a non-empty history one of whose last three contents occurs in the query. */
  predicate ContextRetained(history: seq<ChatMessage>, query: string) {
    |history| > 0 && exists j :: WindowStart(history) <= j < |history| && Contains(query, history[j].content)
  }

  /** The exception handler: counts a fallback, logs the interaction with the error, answers with the apology. */
  function Fallback(s: MetricsState, interaction: Interaction, message: string): TurnResult {
    TurnResult(
      s.(fallbackResponses := s.fallbackResponses + 1,
         interactions := s.interactions + [interaction.(error := Some(message))]),
      FallbackText)
  }

  /**
    The end of a turn whose tools were all counted: context retention, the
    humanized answer, the success test on that answer, and the log entry.
   */
  function Complete(s: MetricsState, query: string, history: seq<ChatMessage>, output: string, tools: seq<string>): TurnResult {
    var response := Humanizer.Humanize(output, query);
    var success := !Humanizer.IsFailureText(response);
    TurnResult(
      s.(successfulResolutions := if success then s.successfulResolutions + 1 else s.successfulResolutions,
         contextRetentionScore :=
           if ContextRetained(history, query) then s.contextRetentionScore + 1 else s.contextRetentionScore,
         interactions := s.interactions + [Interaction(query, success, tools, None)]),
      response)
  }

  /**
    The turn once the executor returned: every tool is counted up to the
    first unregistered name; an unregistered name sends the turn to the
    exception handler with the counts already made kept, otherwise a
    multi-tool episode is counted for more than one tool and the turn
    completes.
   */
  function Returned(s: MetricsState, query: string, history: seq<ChatMessage>,
                    output: string, steps: Option<seq<string>>): TurnResult {
    var tools := if steps.Some? then steps.value else [];
    var k := FirstUnknown(s.toolUsage.Keys, tools);
    var tracked := s.(
      toolUsage := AddCounts(s.toolUsage, tools[..k]),
      multiToolEpisodes := if k == |tools| && |tools| > 1 then s.multiToolEpisodes + 1 else s.multiToolEpisodes);
    if k < |tools| then Fallback(tracked, Interaction(query, false, tools, None), KeyErrorMessage(tools[k]))
    else Complete(tracked, query, history, output, tools)
  }

  /**
    One call of the agent on `query`. The query is counted first, then the
    executor's failure goes to the exception handler and its result is
    processed by `Returned`.
   */
  function Turn(s: MetricsState, query: string, history: seq<ChatMessage>, outcome: ExecutorOutcome): TurnResult {
    var counted := s.(totalQueries := s.totalQueries + 1);
    match outcome
    case ExecutorFailed(message) => Fallback(counted, Interaction(query, false, [], None), message)
    case ExecutorReturned(output, steps) => Returned(counted, query, history, output, steps)
  }

  // Counting over the interaction log; each count is defined from the last
  // element so that appending one interaction adds one term.

  function CountSuccesses(xs: seq<Interaction>): nat {
    if xs == [] then 0
    else CountSuccesses(xs[..|xs| - 1]) + (if xs[|xs| - 1].success then 1 else 0)
  }

  function CountFallbacks(xs: seq<Interaction>): nat {
    if xs == [] then 0
    else CountFallbacks(xs[..|xs| - 1]) + (if xs[|xs| - 1].error.Some? then 1 else 0)
  }

  /** Turns that completed with more than one tool. */
  function CountMultiTool(xs: seq<Interaction>): nat {
    if xs == [] then 0
    else CountMultiTool(xs[..|xs| - 1]) + (if |xs[|xs| - 1].toolsUsed| > 1 && xs[|xs| - 1].error.None? then 1 else 0)
  }

  /** The tool names of a turn whose counts were made: those before the first unregistered one. */
  function CountedTools(x: Interaction): seq<string> {
    x.toolsUsed[..FirstUnknown(ToolNameSet(), x.toolsUsed)]
  }

  /** How often `name` was counted over the whole log. */
  function Usage(xs: seq<Interaction>, name: string): nat {
    if xs == [] then 0
    else Usage(xs[..|xs| - 1], name) + multiset(CountedTools(xs[|xs| - 1]))[name]
  }

  /** A logged turn is never both a success and an error. */
  predicate WellFormed(x: Interaction) {
    x.success ==> x.error.None?
  }

  /**
    The invariant of the metrics record: one interaction per query, each
    counter equal to what the log shows (context retention, which the log
    does not show, bounded by the turns that completed), and the usage map
    holding exactly the registered tools with their counted uses.
   */
  ghost predicate Consistent(s: MetricsState) {
    && |s.interactions| == s.totalQueries
    && (forall i :: 0 <= i < |s.interactions| ==> WellFormed(s.interactions[i]))
    && s.successfulResolutions == CountSuccesses(s.interactions)
    && s.fallbackResponses == CountFallbacks(s.interactions)
    && s.multiToolEpisodes == CountMultiTool(s.interactions)
    && s.contextRetentionScore + s.fallbackResponses <= s.totalQueries
    && s.toolUsage.Keys == ToolNameSet()
    && (forall n :: n in s.toolUsage ==> s.toolUsage[n] == Usage(s.interactions, n))
  }

  lemma InitialConsistent()
    ensures Consistent(Initial())
  {
  }

  /** Successes and fallbacks, and multi-tool turns and fallbacks, never outnumber the turns. */
  lemma {:induction false} CountsBounded(xs: seq<Interaction>)
    requires forall i :: 0 <= i < |xs| ==> WellFormed(xs[i])
    ensures CountSuccesses(xs) + CountFallbacks(xs) <= |xs|
    ensures CountMultiTool(xs) + CountFallbacks(xs) <= |xs|
  {
    if xs != [] {
      CountsBounded(xs[..|xs| - 1]);
      assert WellFormed(xs[|xs| - 1]);
    }
  }

  /** In a consistent record every counter is at most the number of queries. */
  lemma ConsistentBounds(s: MetricsState)
    requires Consistent(s)
    ensures s.successfulResolutions + s.fallbackResponses <= s.totalQueries
    ensures s.multiToolEpisodes <= s.totalQueries
    ensures s.contextRetentionScore <= s.totalQueries
    ensures s.fallbackResponses <= s.totalQueries
  {
    CountsBounded(s.interactions);
  }

  /** Appending one interaction extends each count by that interaction's term. */
  lemma CountsAppend(xs: seq<Interaction>, x: Interaction, name: string)
    ensures CountSuccesses(xs + [x]) == CountSuccesses(xs) + (if x.success then 1 else 0)
    ensures CountFallbacks(xs + [x]) == CountFallbacks(xs) + (if x.error.Some? then 1 else 0)
    ensures CountMultiTool(xs + [x]) == CountMultiTool(xs) + (if |x.toolsUsed| > 1 && x.error.None? then 1 else 0)
    ensures Usage(xs + [x], name) == Usage(xs, name) + multiset(CountedTools(x))[name]
  {
    assert (xs + [x])[..|xs|] == xs;
  }

  /** Logging one interaction with matching counter updates keeps the record consistent. */
  lemma LogStep(s: MetricsState, t: MetricsState, x: Interaction)
    requires Consistent(s) && WellFormed(x)
    requires t.totalQueries == s.totalQueries + 1 && t.interactions == s.interactions + [x]
    requires t.successfulResolutions == s.successfulResolutions + (if x.success then 1 else 0)
    requires t.fallbackResponses == s.fallbackResponses + (if x.error.Some? then 1 else 0)
    requires t.multiToolEpisodes == s.multiToolEpisodes + (if |x.toolsUsed| > 1 && x.error.None? then 1 else 0)
    requires t.contextRetentionScore <= s.contextRetentionScore + (if x.error.None? then 1 else 0)
    requires t.toolUsage.Keys == s.toolUsage.Keys
    requires forall n :: n in s.toolUsage ==> t.toolUsage[n] == s.toolUsage[n] + multiset(CountedTools(x))[n]
    ensures Consistent(t)
  {
    forall n | n in t.toolUsage
      ensures t.toolUsage[n] == Usage(t.interactions, n)
    {
      CountsAppend(s.interactions, x, n);
    }
    CountsAppend(s.interactions, x, "");
    assert forall i :: 0 <= i < |t.interactions| ==> WellFormed(t.interactions[i]) by {
      forall i | 0 <= i < |t.interactions| ensures WellFormed(t.interactions[i]) {
        if i < |s.interactions| {
          assert t.interactions[i] == s.interactions[i];
        }
      }
    }
  }

  /** An executor failure keeps the record consistent. */
  lemma FailurePreservesConsistency(s: MetricsState, query: string, history: seq<ChatMessage>, message: string)
    requires Consistent(s)
    ensures Consistent(Turn(s, query, history, ExecutorFailed(message)).state)
  {
    var t := Turn(s, query, history, ExecutorFailed(message)).state;
    var x := Interaction(query, false, [], Some(message));
    assert t.interactions == s.interactions + [x];
    assert CountedTools(x) == [];
    LogStep(s, t, x);
  }

  /** A turn whose executor returned keeps the record consistent, on the fallback and the completed path. */
  lemma ReturnedPreservesConsistency(s: MetricsState, query: string, history: seq<ChatMessage>,
                                     output: string, steps: Option<seq<string>>)
    requires Consistent(s)
    ensures Consistent(Turn(s, query, history, ExecutorReturned(output, steps)).state)
  {
    var t := Turn(s, query, history, ExecutorReturned(output, steps)).state;
    var tools := if steps.Some? then steps.value else [];
    var k := FirstUnknown(s.toolUsage.Keys, tools);
    var x := t.interactions[|t.interactions| - 1];
    assert t.interactions == s.interactions + [x];
    AddCountsTally(s.toolUsage, tools[..k]);
    assert x.toolsUsed == tools;
    assert CountedTools(x) == tools[..k];
    LogStep(s, t, x);
  }

  /** Every turn keeps the record consistent. */
  lemma TurnPreservesConsistency(s: MetricsState, query: string, history: seq<ChatMessage>, outcome: ExecutorOutcome)
    requires Consistent(s)
    ensures Consistent(Turn(s, query, history, outcome).state)
  {
    match outcome
    case ExecutorFailed(message) =>
      FailurePreservesConsistency(s, query, history, message);
    case ExecutorReturned(output, steps) =>
      ReturnedPreservesConsistency(s, query, history, output, steps);
  }

  /** Every turn counts one query and logs exactly one interaction, for that query. */
  lemma TurnLogsOnce(s: MetricsState, query: string, history: seq<ChatMessage>, outcome: ExecutorOutcome)
    ensures var t := Turn(s, query, history, outcome).state;
      && t.totalQueries == s.totalQueries + 1
      && |t.interactions| == |s.interactions| + 1
      && t.interactions[..|s.interactions|] == s.interactions
      && t.interactions[|s.interactions|].query == query
  {
  }

  /** An executor failure: a fallback is counted, its message logged, the apology returned, nothing else changes. */
  lemma TurnExecutorFailure(s: MetricsState, query: string, history: seq<ChatMessage>, message: string)
    ensures var r := Turn(s, query, history, ExecutorFailed(message));
      && r.response == FallbackText
      && r.state.fallbackResponses == s.fallbackResponses + 1
      && r.state.interactions == s.interactions + [Interaction(query, false, [], Some(message))]
      && r.state.successfulResolutions == s.successfulResolutions
      && r.state.toolUsage == s.toolUsage
      && r.state.multiToolEpisodes == s.multiToolEpisodes
      && r.state.contextRetentionScore == s.contextRetentionScore
  {
  }

  /**
    An unregistered tool name sends the turn to the fallback path; the counts
    already made for the names before it are kept, not rolled back.
   */
  lemma TurnUnknownTool(s: MetricsState, query: string, history: seq<ChatMessage>, output: string, tools: seq<string>, k: nat)
    requires k < |tools| && tools[k] !in s.toolUsage
    requires forall i :: 0 <= i < k ==> tools[i] in s.toolUsage
    ensures var r := Turn(s, query, history, ExecutorReturned(output, Some(tools)));
      && r.response == FallbackText
      && r.state.fallbackResponses == s.fallbackResponses + 1
      && r.state.interactions == s.interactions + [Interaction(query, false, tools, Some(KeyErrorMessage(tools[k])))]
      && r.state.toolUsage.Keys == s.toolUsage.Keys
      && (forall n :: n in s.toolUsage ==> r.state.toolUsage[n] == s.toolUsage[n] + multiset(tools[..k])[n])
      && r.state.successfulResolutions == s.successfulResolutions
      && r.state.multiToolEpisodes == s.multiToolEpisodes
      && r.state.contextRetentionScore == s.contextRetentionScore
  {
    assert FirstUnknown(s.toolUsage.Keys, tools) == k;
    AddCountsTally(s.toolUsage, tools[..k]);
  }

  /**
    A turn whose tools are all registered: each tool's count rises by its
    number of uses, and a multi-tool episode is counted exactly when more
    than one tool was used.
   */
  lemma TurnToolUsage(s: MetricsState, query: string, history: seq<ChatMessage>, output: string, steps: Option<seq<string>>)
    requires steps.Some? ==> forall i :: 0 <= i < |steps.value| ==> steps.value[i] in s.toolUsage
    ensures var tools := if steps.Some? then steps.value else [];
      var r := Turn(s, query, history, ExecutorReturned(output, steps));
      && r.state.fallbackResponses == s.fallbackResponses
      && r.state.toolUsage.Keys == s.toolUsage.Keys
      && (forall n :: n in s.toolUsage ==> r.state.toolUsage[n] == s.toolUsage[n] + multiset(tools)[n])
      && (r.state.multiToolEpisodes == s.multiToolEpisodes + 1 <==> |tools| > 1)
      && (|tools| <= 1 ==> r.state.multiToolEpisodes == s.multiToolEpisodes)
      && r.state.interactions[|s.interactions|].toolsUsed == tools
  {
    var tools := if steps.Some? then steps.value else [];
    assert tools[..|tools|] == tools;
    AddCountsTally(s.toolUsage, tools);
  }

  /**
    On a completed turn, the answer is the humanized output; success is
    counted and logged exactly when it does not mention "error", and context
    retention is counted exactly when the heuristic holds.
   */
  lemma TurnCompleted(s: MetricsState, query: string, history: seq<ChatMessage>, output: string, steps: Option<seq<string>>)
    requires steps.Some? ==> forall i :: 0 <= i < |steps.value| ==> steps.value[i] in s.toolUsage
    ensures var r := Turn(s, query, history, ExecutorReturned(output, steps));
      && r.response == Humanizer.Humanize(output, query)
      && (r.state.successfulResolutions == s.successfulResolutions + 1 <==> !Humanizer.IsFailureText(r.response))
      && r.state.successfulResolutions <= s.successfulResolutions + 1
      && r.state.successfulResolutions >= s.successfulResolutions
      && r.state.interactions[|s.interactions|].success == !Humanizer.IsFailureText(r.response)
      && r.state.interactions[|s.interactions|].error == None
      && (r.state.contextRetentionScore == s.contextRetentionScore + 1 <==> ContextRetained(history, query))
      && r.state.contextRetentionScore <= s.contextRetentionScore + 1
      && r.state.contextRetentionScore >= s.contextRetentionScore
  {
    var tools := if steps.Some? then steps.value else [];
    assert FirstUnknown(s.toolUsage.Keys, tools) == |tools|;
  }

  /** A history message with empty content among the last three always counts as retained context. */
  lemma EmptyContentRetains(history: seq<ChatMessage>, query: string, j: nat)
    requires |history| - 3 <= j < |history| && history[j].content == ""
    ensures ContextRetained(history, query)
  {
    EmptyOccursEverywhere(query);
  }

  /** Messages older than the last three never count, whatever they contain. */
  lemma ContextIgnoresOlder(older: seq<ChatMessage>, recent: seq<ChatMessage>, query: string)
    requires |recent| == 3
    ensures ContextRetained(older + recent, query) <==> ContextRetained(recent, query)
  {
    var h := older + recent;
    if ContextRetained(h, query) {
      var j :| WindowStart(h) <= j < |h| && Contains(query, h[j].content);
      assert h[j] == recent[j - |older|];
    }
    if ContextRetained(recent, query) {
      var j :| WindowStart(recent) <= j < |recent| && Contains(query, recent[j].content);
      assert h[j + |older|] == recent[j];
    }
  }

  /** A turn using two different registered tools. */
  lemma TwoToolTurn(s: MetricsState, query: string, history: seq<ChatMessage>, output: string)
    requires "CheckOrderStatus" in s.toolUsage && "GetProductDetails" in s.toolUsage
    ensures var r := Turn(s, query, history, ExecutorReturned(output, Some(["CheckOrderStatus", "GetProductDetails"])));
      && r.state.multiToolEpisodes == s.multiToolEpisodes + 1
      && r.state.toolUsage["CheckOrderStatus"] == s.toolUsage["CheckOrderStatus"] + 1
      && r.state.toolUsage["GetProductDetails"] == s.toolUsage["GetProductDetails"] + 1
  {
    var tools := ["CheckOrderStatus", "GetProductDetails"];
    TurnToolUsage(s, query, history, output, Some(tools));
    assert multiset(tools)["CheckOrderStatus"] == 1;
    assert multiset(tools)["GetProductDetails"] == 1;
  }

  /** One turn of a session: the query, the history it was asked with, and the executor's result. */
  datatype TurnInput = TurnInput(query: string, history: seq<ChatMessage>, outcome: ExecutorOutcome)

  /** The record after a sequence of turns. */
  function Session(s: MetricsState, turns: seq<TurnInput>): MetricsState
    decreases |turns|
  {
    if turns == [] then s
    else
      var t := turns[0];
      Session(Turn(s, t.query, t.history, t.outcome).state, turns[1..])
  }

  /** After any sequence of turns from a fresh agent the record is consistent: one interaction per query. */
  lemma {:induction false} SessionConsistent(s: MetricsState, turns: seq<TurnInput>)
    requires Consistent(s)
    ensures Consistent(Session(s, turns))
    ensures Session(s, turns).totalQueries == s.totalQueries + |turns|
    ensures |Session(s, turns).interactions| == Session(s, turns).totalQueries
    decreases |turns|
  {
    if turns != [] {
      var t := turns[0];
      TurnPreservesConsistency(s, t.query, t.history, t.outcome);
      SessionConsistent(Turn(s, t.query, t.history, t.outcome).state, turns[1..]);
    }
  }

  /** The report's rates: `count / total * 100`, and 0 while nothing was asked. */
  function Rate(count: nat, total: nat): real {
    if total > 0 then (count as real) / (total as real) * 100.0 else 0.0
  }

  lemma RateBounds(count: nat, total: nat)
    requires count <= total
    ensures 0.0 <= Rate(count, total) <= 100.0
    ensures total == 0 ==> Rate(count, total) == 0.0
    ensures total > 0 ==> Rate(count, total) * (total as real) == (count as real) * 100.0
  {
    if total > 0 {
      var q := (count as real) / (total as real);
      assert q * (total as real) == count as real;
      assert q <= 1.0;
    }
  }

  /** The report: a copy of the record with the three rates added. */
  datatype Report = Report(metrics: MetricsState, successRate: real, multiToolRate: real, contextRetentionRate: real)

  /** The three rates of a consistent record are percentages. */
  lemma ReportRates(s: MetricsState)
    requires Consistent(s)
    ensures 0.0 <= Rate(s.successfulResolutions, s.totalQueries) <= 100.0
    ensures 0.0 <= Rate(s.multiToolEpisodes, s.totalQueries) <= 100.0
    ensures 0.0 <= Rate(s.contextRetentionScore, s.totalQueries) <= 100.0
    ensures s.totalQueries > 0 ==>
      && Rate(s.successfulResolutions, s.totalQueries) * (s.totalQueries as real) == (s.successfulResolutions as real) * 100.0
      && Rate(s.multiToolEpisodes, s.totalQueries) * (s.totalQueries as real) == (s.multiToolEpisodes as real) * 100.0
      && Rate(s.contextRetentionScore, s.totalQueries) * (s.totalQueries as real) == (s.contextRetentionScore as real) * 100.0
  {
    ConsistentBounds(s);
    RateBounds(s.successfulResolutions, s.totalQueries);
    RateBounds(s.multiToolEpisodes, s.totalQueries);
    RateBounds(s.contextRetentionScore, s.totalQueries);
  }
}
