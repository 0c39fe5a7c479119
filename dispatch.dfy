/**
 * The run event handler: the ids it remembers, and the step of its polling loop
 * that answers a `requires_action` run with one output per function tool call.
 */
module Dispatch {
  import opened Wrappers
  import opened Sequences
  import Registry

  /**
   * A tool call the run asks to be answered. The constructor is the call's `type`:
   * FunctionCall for `"function"`, OtherCall for every other type.
   */
  datatype ToolCall =
    | FunctionCall(id: string, name: string, arguments: string)
    | OtherCall(id: string)

  /** `{"tool_call_id": ..., "output": ...}`. */
  datatype ToolOutput = ToolOutput(toolCallId: string, output: string)

  /** The function calls among `calls`, in order. */
  function FunctionCalls(calls: seq<ToolCall>): (r: seq<ToolCall>)
    ensures forall k :: 0 <= k < |r| ==> r[k].FunctionCall? && r[k] in calls
    ensures forall c :: c in calls && c.FunctionCall? ==> c in r
  {
    if calls == [] then []
    else if calls[0].FunctionCall? then [calls[0]] + FunctionCalls(calls[1..])
    else FunctionCalls(calls[1..])
  }

  /** Every function call is answered as often as it occurs; nothing else is. */
  lemma {:induction false} FunctionCallsKeepsCalls(calls: seq<ToolCall>, c: ToolCall)
    ensures multiset(FunctionCalls(calls))[c] == if c.FunctionCall? then multiset(calls)[c] else 0
  {
    if calls != [] {
      FunctionCallsKeepsCalls(calls[1..], c);
      assert calls == [calls[0]] + calls[1..];
      assert multiset(calls) == multiset([calls[0]]) + multiset(calls[1..]);
    }
  }

  /** The function calls are answered in the order of `tool_calls`. */
  lemma {:induction false} FunctionCallsKeepsOrder(calls: seq<ToolCall>)
    ensures IsSubsequence(FunctionCalls(calls), calls)
  {
    if calls != [] {
      FunctionCallsKeepsOrder(calls[1..]);
      if calls[0].FunctionCall? {
        assert FunctionCalls(calls)[1..] == FunctionCalls(calls[1..]);
      }
    }
  }

  lemma {:induction false} FunctionCallsSnoc(calls: seq<ToolCall>, c: ToolCall)
    ensures FunctionCalls(calls + [c]) == FunctionCalls(calls) + (if c.FunctionCall? then [c] else [])
  {
    if calls == [] {
      assert [c][1..] == [];
    } else {
      assert (calls + [c])[1..] == calls[1..] + [c];
      FunctionCallsSnoc(calls[1..], c);
    }
  }

  /** The lookup loop: the first connection, in `mcp_tools` order, that lists `funcName`. */
  method FindServer(registry: Registry.ToolRegistry, funcName: string) returns (mcpName: Option<string>)
    ensures mcpName == Registry.ServerFor(registry.entries, funcName)
  {
    var entries := registry.entries;
    mcpName := None;
    var i := 0;
    while i < |entries|
      invariant 0 <= i <= |entries|
      invariant Registry.ServerFor(entries, funcName) == Registry.ServerFor(entries[i..], funcName)
    {
      if Registry.HasTool(entries[i].tools, funcName) {
        mcpName := Some(entries[i].name);
        break;
      }
      assert entries[i..][1..] == entries[i + 1..];
      i := i + 1;
    }
  }

  class EventHandler {
    var runId: string
    var threadId: string

    constructor ()
      ensures runId == "UNINITIALIZED_RUN_ID" && threadId == "UNINITIALIZED_THRETAD_ID"
    {
      runId := "UNINITIALIZED_RUN_ID";
      threadId := "UNINITIALIZED_THRETAD_ID";
    }

    /** `on_run_step_created`: remember the run and thread the step belongs to. */
    method OnRunStepCreated(stepRunId: string, stepThreadId: string)
      modifies this
      ensures runId == stepRunId && threadId == stepThreadId
    {
      runId := stepRunId;
      threadId := stepThreadId;
    }

    /**
     * One `requires_action` round: for each function call, in order, find its
     * server and call `invoke(server, name, arguments)`; other calls are skipped.
     */
    method CollectToolOutputs(registry: Registry.ToolRegistry, calls: seq<ToolCall>,
                              invoke: (Option<string>, string, string) -> string)
      returns (outputs: seq<ToolOutput>)
      ensures |outputs| == |FunctionCalls(calls)|
      ensures forall k :: 0 <= k < |outputs| ==>
        var c := FunctionCalls(calls)[k];
        && outputs[k].toolCallId == c.id
        && outputs[k].output == invoke(Registry.ServerFor(registry.entries, c.name), c.name, c.arguments)
    {
      outputs := [];
      for i := 0 to |calls|
        invariant |outputs| == |FunctionCalls(calls[..i])|
        invariant forall k :: 0 <= k < |outputs| ==>
          var c := FunctionCalls(calls[..i])[k];
          && outputs[k].toolCallId == c.id
          && outputs[k].output == invoke(Registry.ServerFor(registry.entries, c.name), c.name, c.arguments)
      {
        FunctionCallsSnoc(calls[..i], calls[i]);
        assert calls[..i + 1] == calls[..i] + [calls[i]];
        var call := calls[i];
        if !call.FunctionCall? {
          continue;
        }
        var mcpName := FindServer(registry, call.name);
        var response := invoke(mcpName, call.name, call.arguments);
        outputs := outputs + [ToolOutput(call.id, response)];
      }
      assert calls[..|calls|] == calls;
    }
  }
}
