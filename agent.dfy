/**
  The agent object: its metrics record is updated in place by every call of
  `RunAgent`, counter by counter, with the tool counts made in a loop over
  the tools the executor used. The executor's result is passed in.
 */
module Agent {
  import opened Wrappers
  import Humanizer
  import opened Metrics

  class EcommerceAgent {
    var totalQueries: nat
    var successfulResolutions: nat
    var toolUsage: map<string, nat>
    var fallbackResponses: nat
    var multiToolEpisodes: nat
    var contextRetentionScore: nat
    var interactions: seq<Interaction>

    /** The metrics record the fields hold. */
    function Snapshot(): MetricsState
      reads this
    {
      MetricsState(totalQueries, successfulResolutions, toolUsage, fallbackResponses,
        multiToolEpisodes, contextRetentionScore, interactions)
    }

    ghost predicate Valid()
      reads this
    {
      Consistent(Snapshot())
    }

    /** A fresh agent: all counters zero, every registered tool counted at zero, an empty log. */
    constructor ()
      ensures Valid()
      ensures Snapshot() == Initial()
    {
      var init := Initial();
      totalQueries := 0;
      successfulResolutions := 0;
      toolUsage := init.toolUsage;
      fallbackResponses := 0;
      multiToolEpisodes := 0;
      contextRetentionScore := 0;
      interactions := [];
      InitialConsistent();
    }

    /**
      Increments the usage count of each name in order; stops at the first
      name that is not a key (where the dictionary raises `KeyError`) and
      returns its index, or the number of names when all were counted.
     */
    method CountToolUsage(names: seq<string>) returns (k: nat)
      modifies this`toolUsage
      ensures k == FirstUnknown(old(toolUsage).Keys, names)
      ensures toolUsage == AddCounts(old(toolUsage), names[..k])
    {
      k := 0;
      while k < |names|
        invariant k <= |names|
        invariant forall j :: 0 <= j < k ==> names[j] in old(toolUsage)
        invariant toolUsage == AddCounts(old(toolUsage), names[..k])
      {
        var name := names[k];
        if name !in toolUsage {
          return;
        }
        assert names[..k + 1][..k] == names[..k];
        toolUsage := toolUsage[name := toolUsage[name] + 1];
        k := k + 1;
      }
    }

    /** The exception handler: counts a fallback, logs the error, returns the apology. */
    method RecordFallback(interaction: Interaction, message: string) returns (response: string)
      modifies this`fallbackResponses, this`interactions
      ensures Snapshot() == Fallback(old(Snapshot()), interaction, message).state
      ensures response == FallbackText
    {
      fallbackResponses := fallbackResponses + 1;
      interactions := interactions + [interaction.(error := Some(message))];
      response := FallbackText;
    }

    /**
      Tool tracking: counts each tool the executor's steps name and, when
      all were registered, a multi-tool episode for more than one tool.
      Returns the index of the first unregistered name, or the number of
      tools when there is none.
     */
    method TrackTools(tools: seq<string>) returns (k: nat)
      modifies this`toolUsage, this`multiToolEpisodes
      ensures k == FirstUnknown(old(toolUsage).Keys, tools)
      ensures toolUsage == AddCounts(old(toolUsage), tools[..k])
      ensures multiToolEpisodes == if k == |tools| && |tools| > 1 then old(multiToolEpisodes) + 1 else old(multiToolEpisodes)
    {
      k := CountToolUsage(tools);
      if k == |tools| && |tools| > 1 {
        multiToolEpisodes := multiToolEpisodes + 1;
      }
    }

    /** The rest of the `try` once every tool was counted: context, humanizing, success, log entry. */
    method FinishTurn(query: string, chatHistory: seq<ChatMessage>, output: string, tools: seq<string>)
      returns (response: string)
      modifies this`contextRetentionScore, this`successfulResolutions, this`interactions
      ensures Snapshot() == Complete(old(Snapshot()), query, chatHistory, output, tools).state
      ensures response == Complete(old(Snapshot()), query, chatHistory, output, tools).response
    {
      var interaction := Interaction(query, false, tools, None);
      if ContextRetained(chatHistory, query) {
        contextRetentionScore := contextRetentionScore + 1;
      }
      response := Humanizer.Humanize(output, query);
      if !Humanizer.IsFailureText(response) {
        successfulResolutions := successfulResolutions + 1;
        interaction := interaction.(success := true);
      }
      interactions := interactions + [interaction];
    }

    /**
      The `try` body after the executor returned: tracks the tools, then
      either raises into the exception handler or finishes the turn.
     */
    method HandleReturned(query: string, chatHistory: seq<ChatMessage>, output: string, steps: Option<seq<string>>)
      returns (response: string)
      modifies this
      ensures Snapshot() == Returned(old(Snapshot()), query, chatHistory, output, steps).state
      ensures response == Returned(old(Snapshot()), query, chatHistory, output, steps).response
    {
      var tools := if steps.Some? then steps.value else [];
      var interaction := Interaction(query, false, tools, None);
      var k := TrackTools(tools);
      if k < |tools| {
        response := RecordFallback(interaction, KeyErrorMessage(tools[k]));
      } else {
        response := FinishTurn(query, chatHistory, output, tools);
      }
    }

    /**
      The body of `run_agent`: counts the query, then hands the executor's
      failure to the exception handler or processes its result. It needs no
      invariant; `RunAgent` adds the record invariant on top of it.
     */
    method ProcessTurn(query: string, chatHistory: seq<ChatMessage>, outcome: ExecutorOutcome) returns (response: string)
      modifies this
      ensures Snapshot() == Turn(old(Snapshot()), query, chatHistory, outcome).state
      ensures response == Turn(old(Snapshot()), query, chatHistory, outcome).response
    {
      totalQueries := totalQueries + 1;
      match outcome {
        case ExecutorFailed(message) =>
          response := RecordFallback(Interaction(query, false, [], None), message);
        case ExecutorReturned(output, steps) =>
          response := HandleReturned(query, chatHistory, output, steps);
      }
    }

    /** One user turn, given what the executor produced for it; the record stays consistent. */
    method RunAgent(query: string, chatHistory: seq<ChatMessage>, outcome: ExecutorOutcome) returns (response: string)
      requires Valid()
      modifies this
      ensures Valid()
      ensures Snapshot() == Turn(old(Snapshot()), query, chatHistory, outcome).state
      ensures response == Turn(old(Snapshot()), query, chatHistory, outcome).response
    {
      TurnPreservesConsistency(Snapshot(), query, chatHistory, outcome);
      response := ProcessTurn(query, chatHistory, outcome);
    }

    /**
      The report: the record as it stands, with the success, multi-tool and
      context-retention rates, each a percentage of the queries in [0, 100]
      and 0 before the first query.
     */
    function GetMetrics(): (report: Report)
      reads this
      requires Valid()
      ensures report.metrics == Snapshot()
      ensures 0.0 <= report.successRate <= 100.0
      ensures 0.0 <= report.multiToolRate <= 100.0
      ensures 0.0 <= report.contextRetentionRate <= 100.0
      ensures totalQueries == 0 ==>
        report.successRate == 0.0 && report.multiToolRate == 0.0 && report.contextRetentionRate == 0.0
      ensures totalQueries > 0 ==>
        && report.successRate * (totalQueries as real) == (successfulResolutions as real) * 100.0
        && report.multiToolRate * (totalQueries as real) == (multiToolEpisodes as real) * 100.0
        && report.contextRetentionRate * (totalQueries as real) == (contextRetentionScore as real) * 100.0
    {
      ReportRates(Snapshot());
      Report(Snapshot(),
        Rate(successfulResolutions, totalQueries),
        Rate(multiToolEpisodes, totalQueries),
        Rate(contextRetentionScore, totalQueries))
    }
  }
}
