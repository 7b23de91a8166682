/**
 * The agent's plan-act-reflect loop: a bounded sequence of provider calls,
 * each tool call gated by the policy before it is looked up and executed,
 * with an append-only audit list of tool-call records.
 *
 * `Loop.Run` is the imperative loop; `RunSpec` is the same loop written as
 * functions, and the lemmas in AgentLoopProperties are stated about it.
 */
module AgentLoop {
  import opened Wrappers
  import opened Values
  import opened Agent

  const StatusSucceeded := "succeeded"
  const StatusFailed := "failed"
  const StatusMaxIterations := "max_iterations"

  /** The stop reason that, with no further tool calls, ends the loop successfully. */
  const EndTurn := "end_turn"

  /** What `Policy.Allow` answers: nil (permit) or an error (deny). */
  datatype Verdict = Permit | Deny(reason: string)

  /** What `Tool.Execute` answers: an output or an error. */
  datatype ToolOutcome = Output(text: string) | ExecError(message: string)

  /** A registered tool, as the outcome it gives for each input. */
  type Tool = Input -> ToolOutcome

  /** The policy gate, as the verdict it gives for each tool call. */
  type Policy = ToolCall -> Verdict

  /** One answer of the provider: a response or an error. */
  datatype Reply = Answer(response: Response) | Failure(message: string)

  /** An audit entry: the tool call plus its output or its error. */
  datatype ToolCallRecord = ToolCallRecord(id: string, name: string, input: Input, output: string, error: string)

  /** The accumulated outcome of one run. */
  datatype Result = Result(
    status: string,
    iterations: int,
    toolCalls: seq<ToolCallRecord>,
    finalResponse: string,
    totalTokensIn: int,
    totalTokensOut: int,
    error: string)

  const InitialResult := Result(StatusSucceeded, 0, [], "", 0, 0, "")

  const ContinuePrompt := "Please continue analyzing the goal. If you need more information, use the available tools. If you're confident the goal is achieved, provide your final answer."

  /** The user message that states the goal. */
  function GoalPrompt(goal: string): string
  {
    "Goal: " + goal + "\n\nPlease analyze this goal and take the necessary actions to achieve it."
  }

  /** The conversation the loop starts from: an optional system message, then the goal. */
  function InitialMessages(systemPrompt: string, goal: string): (ms: seq<Message>)
    ensures |ms| == if systemPrompt == "" then 1 else 2
    ensures ms[|ms| - 1] == Message(RoleUser, GoalPrompt(goal))
    ensures systemPrompt != "" ==> ms[0] == Message(RoleSystem, systemPrompt)
  {
    (if systemPrompt != "" then [Message(RoleSystem, systemPrompt)] else [])
    + [Message(RoleUser, GoalPrompt(goal))]
  }

  /** The answer a scripted provider gives to its k-th call (counted from 0). */
  function ReplyAt(script: seq<Reply>, k: nat): Reply
  {
    if k < |script| then script[k] else Failure("no more responses")
  }

  /**
   * A provider that answers from a fixed script and remembers every
   * conversation it was sent; past the end of the script it fails.
   */
  class ScriptedProvider {
    const script: seq<Reply>
    var sent: seq<seq<Message>>

    constructor (script: seq<Reply>)
      ensures this.script == script && sent == []
    {
      this.script := script;
      sent := [];
    }

    method Call(messages: seq<Message>) returns (r: Reply)
      modifies this
      ensures sent == old(sent) + [messages]
      ensures r == ReplyAt(script, |old(sent)|)
    {
      r := ReplyAt(script, |sent|);
      sent := sent + [messages];
    }
  }

  /** The line of the tool-results message that reports one tool outcome. */
  function ToolResultLine(tr: ToolResult): string
  {
    if tr.isError then "Tool call " + tr.toolCallId + " failed: " + tr.content + "\n"
    else "Tool call " + tr.toolCallId + " result: " + tr.content + "\n"
  }

  /** The tool-results message: one line per executed call, in order. */
  function ToolResultsText(trs: seq<ToolResult>): string
  {
    if trs == [] then "" else ToolResultsText(trs[..|trs| - 1]) + ToolResultLine(trs[|trs| - 1])
  }

  /** The audit record and the fed-back result of executing one tool call. */
  function Execute(tool: Tool, tc: ToolCall): (p: (ToolCallRecord, ToolResult))
    ensures p.0.id == tc.id && p.0.name == tc.name && p.0.input == tc.input
    ensures p.1.toolCallId == tc.id
    ensures tool(tc.input).ExecError? ==>
      p.0.output == "" && p.0.error == tool(tc.input).message && p.1 == ToolResult(tc.id, p.0.error, true)
    ensures tool(tc.input).Output? ==>
      p.0.output == tool(tc.input).text && p.0.error == "" && p.1 == ToolResult(tc.id, p.0.output, false)
  {
    match tool(tc.input)
    case ExecError(e) => (ToolCallRecord(tc.id, tc.name, tc.input, "", e), ToolResult(tc.id, e, true))
    case Output(o) => (ToolCallRecord(tc.id, tc.name, tc.input, o, ""), ToolResult(tc.id, o, false))
  }

  /** How processing one batch of tool calls ends. */
  datatype Batch =
    | Completed(records: seq<ToolCallRecord>, results: seq<ToolResult>)
    | Denied(records: seq<ToolCallRecord>, call: ToolCall, reason: string)
    | Missing(records: seq<ToolCallRecord>, name: string)

  /**
   * Processes `calls` in order, appending to the audit list `records` and to
   * the fed-back `results`: policy first, then lookup, then execution.
   */
  function RunBatch(tools: map<string, Tool>, policy: Policy, calls: seq<ToolCall>,
                    records: seq<ToolCallRecord>, results: seq<ToolResult>): Batch
    decreases |calls|
  {
    if calls == [] then Completed(records, results)
    else
      var tc := calls[0];
      match policy(tc)
      case Deny(reason) => Denied(records, tc, reason)
      case Permit =>
        if tc.name !in tools then Missing(records, tc.name)
        else
          var p := Execute(tools[tc.name], tc);
          RunBatch(tools, policy, calls[1..], records + [p.0], results + [p.1])
  }

  /** Everything a run depends on: the loop's fields and where the provider's script stands. */
  datatype Env = Env(
    tools: map<string, Tool>,
    policy: Policy,
    script: seq<Reply>,
    base: nat,
    maxIterations: int)

  /** The loop's variables: the conversation, the result, and the conversations sent so far. */
  datatype State = State(messages: seq<Message>, result: Result, sent: seq<seq<Message>>)

  /** The reply the provider gives to the next call made from state `st`. */
  function NextReply(env: Env, st: State): Reply
  {
    ReplyAt(env.script, env.base + |st.sent|)
  }

  /** How one iteration ends: on to the next iteration, or out of the loop with an error or none. */
  datatype Step = Next(state: State) | Stop(state: State, err: Option<string>)

  /** Adds a response's token counts to the running totals. */
  function AddTokens(r: Result, resp: Response): Result
  {
    r.(totalTokensIn := r.totalTokensIn + resp.tokensIn, totalTokensOut := r.totalTokensOut + resp.tokensOut)
  }

  /** One loop iteration, from the first provider call on. */
  function Iteration(env: Env, st: State): Step
  {
    var sent := st.sent + [st.messages];
    match NextReply(env, st)
    case Failure(e) =>
      Stop(State(st.messages, st.result.(status := StatusFailed, error := "LLM call failed: " + e), sent), Some(e))
    case Answer(resp) =>
      var result := AddTokens(st.result, resp);
      var messages := st.messages + [Message(RoleAssistant, resp.content)];
      if |resp.toolCalls| == 0 then
        Next(State(messages + [Message(RoleUser, ContinuePrompt)], result.(finalResponse := resp.content), sent))
      else
        Act(env, State(messages, result, sent), resp.toolCalls)
  }

  /** The tool-call batch of an iteration, then the reflection call if the batch completes. */
  function Act(env: Env, st: State, calls: seq<ToolCall>): Step
  {
    match RunBatch(env.tools, env.policy, calls, st.result.toolCalls, [])
    case Denied(records, tc, reason) =>
      Stop(st.(result := st.result.(toolCalls := records, status := StatusFailed,
                                     error := "Policy violation for tool " + tc.name + ": " + reason)),
           Some("policy violation: " + reason))
    case Missing(records, name) =>
      Stop(st.(result := st.result.(toolCalls := records, status := StatusFailed, error := "Tool not found: " + name)),
           Some("tool not found: " + name))
    case Completed(records, results) =>
      Reflect(env, State(st.messages + [Message(RoleUser, ToolResultsText(results))],
                         st.result.(toolCalls := records), st.sent))
  }

  /** The reflection call that closes an iteration with tool calls. */
  function Reflect(env: Env, st: State): Step
  {
    var sent := st.sent + [st.messages];
    match NextReply(env, st)
    case Failure(e) =>
      Stop(State(st.messages, st.result.(status := StatusFailed, error := "Reflection call failed: " + e), sent), Some(e))
    case Answer(resp) =>
      var result := AddTokens(st.result, resp).(finalResponse := resp.content);
      var messages := st.messages + [Message(RoleAssistant, resp.content)];
      if |resp.toolCalls| == 0 && resp.stopReason == EndTurn then
        Stop(State(messages, result.(status := StatusSucceeded), sent), None)
      else
        Next(State(messages, result, sent))
  }

  /** The loop from iteration `iteration` (counted from 0) on, to its final state and error. */
  function RunFrom(env: Env, st: State, iteration: int): (State, Option<string>)
    decreases env.maxIterations - iteration
  {
    if iteration >= env.maxIterations then
      (st.(result := st.result.(status := StatusMaxIterations)), None)
    else
      match Iteration(env, st.(result := st.result.(iterations := iteration + 1)))
      case Stop(final, err) => (final, err)
      case Next(st') => RunFrom(env, st', iteration + 1)
  }

  /** A whole run. */
  function RunSpec(env: Env, systemPrompt: string, goal: string): (State, Option<string>)
  {
    RunFrom(env, State(InitialMessages(systemPrompt, goal), InitialResult, []), 0)
  }

  /** An iteration that stops ends the run with its state and error. */
  lemma RunFromStop(env: Env, st: State, iteration: int, final: State, err: Option<string>)
    requires iteration < env.maxIterations
    requires Iteration(env, st.(result := st.result.(iterations := iteration + 1))) == Stop(final, err)
    ensures RunFrom(env, st, iteration) == (final, err)
  {
  }

  /** An iteration that goes on leaves the rest of the run to the next iteration. */
  lemma RunFromNext(env: Env, st: State, iteration: int, st': State)
    requires iteration < env.maxIterations
    requires Iteration(env, st.(result := st.result.(iterations := iteration + 1))) == Next(st')
    ensures RunFrom(env, st, iteration) == RunFrom(env, st', iteration + 1)
  {
  }

  /** The loop's configuration and collaborators. */
  class Loop {
    const provider: ScriptedProvider
    const tools: map<string, Tool>
    const policy: Policy
    const goal: string
    const systemPrompt: string
    const maxIterations: int

    constructor (provider: ScriptedProvider, tools: map<string, Tool>, policy: Policy,
                 goal: string, systemPrompt: string, maxIterations: int)
      ensures this.provider == provider && this.tools == tools && this.policy == policy
      ensures this.goal == goal && this.systemPrompt == systemPrompt && this.maxIterations == maxIterations
    {
      this.provider := provider;
      this.tools := tools;
      this.policy := policy;
      this.goal := goal;
      this.systemPrompt := systemPrompt;
      this.maxIterations := maxIterations;
    }

    /**
     * Runs the plan-act-reflect loop. The returned result and error, and the
     * conversations the provider receives, are those of `RunSpec`.
     */
    method Run() returns (result: Result, err: Option<string>)
      modifies provider
      ensures var final := RunSpec(Env(tools, policy, provider.script, |old(provider.sent)|, maxIterations), systemPrompt, goal);
              result == final.0.result && err == final.1 && provider.sent == old(provider.sent) + final.0.sent
    {
      ghost var env := Env(tools, policy, provider.script, |provider.sent|, maxIterations);
      ghost var history := provider.sent;
      ghost var sent: seq<seq<Message>> := [];
      ghost var final := RunSpec(env, systemPrompt, goal);

      result := InitialResult;
      var messages: seq<Message> := [];
      if systemPrompt != "" {
        messages := messages + [Message(RoleSystem, systemPrompt)];
      }
      messages := messages + [Message(RoleUser, GoalPrompt(goal))];
      assert messages == InitialMessages(systemPrompt, goal);

      var iteration := 0;
      while iteration < maxIterations
        invariant 0 <= iteration
        invariant provider.sent == history + sent
        invariant RunFrom(env, State(messages, result, sent), iteration) == final
        decreases maxIterations - iteration
      {
        ghost var before := State(messages, result, sent);
        result := result.(iterations := iteration + 1);
        var stop;
        messages, result, stop, err, sent := Iterate(messages, result, env, history, sent);
        if stop {
          RunFromStop(env, before, iteration, State(messages, result, sent), err);
          return;
        }
        RunFromNext(env, before, iteration, State(messages, result, sent));
        iteration := iteration + 1;
      }

      result := result.(status := StatusMaxIterations);
      err := None;
    }

    /**
     * The body of the loop in `Run`: the provider call, then either the
     * "continue" prompt or the tool-call batch followed by the reflection call.
     */
    method Iterate(messages: seq<Message>, result: Result, ghost env: Env,
                   ghost history: seq<seq<Message>>, ghost sent: seq<seq<Message>>)
      returns (messages': seq<Message>, result': Result, stop: bool, err: Option<string>, ghost sent': seq<seq<Message>>)
      requires env == Env(tools, policy, provider.script, |history|, env.maxIterations)
      requires provider.sent == history + sent
      modifies provider
      ensures provider.sent == history + sent'
      ensures Iteration(env, State(messages, result, sent))
           == if stop then Stop(State(messages', result', sent'), err) else Next(State(messages', result', sent'))
    {
      messages', result', err := messages, result, None;
      var reply := provider.Call(messages');
      sent' := sent + [messages'];
      if reply.Failure? {
        result' := result'.(status := StatusFailed, error := "LLM call failed: " + reply.message);
        return messages', result', true, Some(reply.message), sent';
      }
      var response := reply.response;
      result' := AddTokens(result', response);
      messages' := messages' + [Message(RoleAssistant, response.content)];

      if |response.toolCalls| == 0 {
        result' := result'.(finalResponse := response.content);
        messages' := messages' + [Message(RoleUser, ContinuePrompt)];
        return messages', result', false, None, sent';
      }

      assert Iteration(env, State(messages, result, sent)) == Act(env, State(messages', result', sent'), response.toolCalls);
      var batch := ProcessToolCalls(response.toolCalls, result'.toolCalls);
      result' := result'.(toolCalls := batch.records);
      if batch.Denied? {
        result' := result'.(status := StatusFailed,
                            error := "Policy violation for tool " + batch.call.name + ": " + batch.reason);
        return messages', result', true, Some("policy violation: " + batch.reason), sent';
      }
      if batch.Missing? {
        result' := result'.(status := StatusFailed, error := "Tool not found: " + batch.name);
        return messages', result', true, Some("tool not found: " + batch.name), sent';
      }
      var toolResultsContent := FormatToolResults(batch.results);
      messages' := messages' + [Message(RoleUser, toolResultsContent)];
      assert Iteration(env, State(messages, result, sent)) == Reflect(env, State(messages', result', sent'));

      var reflectReply := provider.Call(messages');
      sent' := sent' + [messages'];
      if reflectReply.Failure? {
        result' := result'.(status := StatusFailed, error := "Reflection call failed: " + reflectReply.message);
        return messages', result', true, Some(reflectReply.message), sent';
      }
      var reflectResponse := reflectReply.response;
      result' := AddTokens(result', reflectResponse);
      messages' := messages' + [Message(RoleAssistant, reflectResponse.content)];
      result' := result'.(finalResponse := reflectResponse.content);

      if |reflectResponse.toolCalls| == 0 && reflectResponse.stopReason == EndTurn {
        result' := result'.(status := StatusSucceeded);
        return messages', result', true, None, sent';
      }
      return messages', result', false, None, sent';
    }

    /**
     * The inner loop over one batch of tool calls: each call is checked by the
     * policy, then looked up by name, then executed, and its record appended to
     * `records`; a denial or a missing tool stops the batch.
     */
    method ProcessToolCalls(calls: seq<ToolCall>, records: seq<ToolCallRecord>) returns (batch: Batch)
      ensures batch == RunBatch(tools, policy, calls, records, [])
    {
      var toolCalls := records;
      var toolResults: seq<ToolResult> := [];
      var j := 0;
      while j < |calls|
        invariant 0 <= j <= |calls|
        invariant RunBatch(tools, policy, calls[j..], toolCalls, toolResults) == RunBatch(tools, policy, calls, records, [])
      {
        var toolCall := calls[j];
        var verdict := policy(toolCall);
        if verdict.Deny? {
          return Denied(toolCalls, toolCall, verdict.reason);
        }
        if toolCall.name !in tools {
          return Missing(toolCalls, toolCall.name);
        }
        var outcome := tools[toolCall.name](toolCall.input);
        var record := ToolCallRecord(toolCall.id, toolCall.name, toolCall.input, "", "");
        if outcome.ExecError? {
          record := record.(error := outcome.message);
          toolResults := toolResults + [ToolResult(toolCall.id, outcome.message, true)];
        } else {
          record := record.(output := outcome.text);
          toolResults := toolResults + [ToolResult(toolCall.id, outcome.text, false)];
        }
        toolCalls := toolCalls + [record];
        assert calls[j..][1..] == calls[j + 1..];
        j := j + 1;
      }
      return Completed(toolCalls, toolResults);
    }

    /** Builds the tool-results message with `+=`, one line per tool outcome. */
    static method FormatToolResults(toolResults: seq<ToolResult>) returns (content: string)
      ensures content == ToolResultsText(toolResults)
    {
      content := "";
      var k := 0;
      while k < |toolResults|
        invariant 0 <= k <= |toolResults|
        invariant content == ToolResultsText(toolResults[..k])
      {
        var tr := toolResults[k];
        var line: string;
        if tr.isError {
          line := "Tool call " + tr.toolCallId + " failed: " + tr.content + "\n";
        } else {
          line := "Tool call " + tr.toolCallId + " result: " + tr.content + "\n";
        }
        content := content + line;
        assert toolResults[..k + 1][..k] == toolResults[..k];
        k := k + 1;
      }
      assert toolResults[..k] == toolResults;
    }
  }
}
