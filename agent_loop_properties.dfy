/**
 * What the plan-act-reflect loop promises, proved about `RunSpec`, the
 * functional form of `Loop.Run`.
 */
module AgentLoopProperties {
  import opened Wrappers
  import opened Values
  import opened Agent
  import opened AgentLoop

  // ---------------------------------------------------------------------------
  // Tool-call batches
  // ---------------------------------------------------------------------------

  /** Every call in `calls` is permitted by the policy and names a registered tool. */
  ghost predicate AllRunnable(tools: map<string, Tool>, policy: Policy, calls: seq<ToolCall>)
  {
    forall i :: 0 <= i < |calls| ==> policy(calls[i]) == Permit && calls[i].name in tools
  }

  /** The audit records of executing `calls` in order. */
  function ExecutedRecords(tools: map<string, Tool>, calls: seq<ToolCall>): (rs: seq<ToolCallRecord>)
    requires forall i :: 0 <= i < |calls| ==> calls[i].name in tools
    ensures |rs| == |calls|
    ensures forall i :: 0 <= i < |calls| ==> rs[i] == Execute(tools[calls[i].name], calls[i]).0
  {
    if calls == [] then []
    else
      var tc := calls[|calls| - 1];
      ExecutedRecords(tools, calls[..|calls| - 1]) + [Execute(tools[tc.name], tc).0]
  }

  /** The fed-back results of executing `calls` in order. */
  function ExecutedResults(tools: map<string, Tool>, calls: seq<ToolCall>): (rs: seq<ToolResult>)
    requires forall i :: 0 <= i < |calls| ==> calls[i].name in tools
    ensures |rs| == |calls|
    ensures forall i :: 0 <= i < |calls| ==> rs[i] == Execute(tools[calls[i].name], calls[i]).1
  {
    if calls == [] then []
    else
      var tc := calls[|calls| - 1];
      ExecutedResults(tools, calls[..|calls| - 1]) + [Execute(tools[tc.name], tc).1]
  }

  /**
   * Running the first j calls of a batch, all of them permitted and
   * registered, appends exactly their records and results, in order.
   */
  lemma {:induction false} BatchPrefix(tools: map<string, Tool>, policy: Policy, calls: seq<ToolCall>, j: nat,
                                       records: seq<ToolCallRecord>, results: seq<ToolResult>)
    requires j <= |calls|
    requires AllRunnable(tools, policy, calls[..j])
    ensures RunBatch(tools, policy, calls, records, results)
         == RunBatch(tools, policy, calls[j..], records + ExecutedRecords(tools, calls[..j]),
                     results + ExecutedResults(tools, calls[..j]))
  {
    if j == 0 {
      assert calls[..j] == [] && calls[j..] == calls;
      assert records + ExecutedRecords(tools, []) == records;
      assert results + ExecutedResults(tools, []) == results;
    } else {
      assert calls[..j][..j - 1] == calls[..j - 1];
      assert AllRunnable(tools, policy, calls[..j - 1]) by {
        forall i | 0 <= i < j - 1 ensures calls[..j - 1][i] == calls[..j][i] { }
      }
      BatchPrefix(tools, policy, calls, j - 1, records, results);
      var tc := calls[j - 1];
      assert calls[..j][j - 1] == tc;
      var p := Execute(tools[tc.name], tc);
      var rs := records + ExecutedRecords(tools, calls[..j - 1]);
      var ts := results + ExecutedResults(tools, calls[..j - 1]);
      assert calls[j - 1..][0] == tc && calls[j - 1..][1..] == calls[j..];
      assert RunBatch(tools, policy, calls[j - 1..], rs, ts) == RunBatch(tools, policy, calls[j..], rs + [p.0], ts + [p.1]);
      assert ExecutedRecords(tools, calls[..j]) == ExecutedRecords(tools, calls[..j - 1]) + [p.0];
      assert ExecutedResults(tools, calls[..j]) == ExecutedResults(tools, calls[..j - 1]) + [p.1];
      assert rs + [p.0] == records + ExecutedRecords(tools, calls[..j]);
      assert ts + [p.1] == results + ExecutedResults(tools, calls[..j]);
    }
  }

  /**
   * A batch whose calls are all permitted and registered always completes,
   * whatever the tools answer (a tool error is recorded, not fatal), with one
   * record and one result per call, in call order.
   */
  lemma BatchCompletes(tools: map<string, Tool>, policy: Policy, calls: seq<ToolCall>, records: seq<ToolCallRecord>)
    requires AllRunnable(tools, policy, calls)
    ensures RunBatch(tools, policy, calls, records, [])
         == Completed(records + ExecutedRecords(tools, calls), ExecutedResults(tools, calls))
  {
    assert calls[..|calls|] == calls;
    BatchPrefix(tools, policy, calls, |calls|, records, []);
    assert calls[|calls|..] == [];
  }

  /**
   * The policy is checked before lookup and execution: when call j is denied,
   * the batch stops with the records of calls 0..j-1 and none for call j.
   */
  lemma BatchStopsAtDenial(tools: map<string, Tool>, policy: Policy, calls: seq<ToolCall>, j: nat,
                           records: seq<ToolCallRecord>)
    requires j < |calls|
    requires AllRunnable(tools, policy, calls[..j])
    requires policy(calls[j]).Deny?
    ensures RunBatch(tools, policy, calls, records, [])
         == Denied(records + ExecutedRecords(tools, calls[..j]), calls[j], policy(calls[j]).reason)
  {
    BatchPrefix(tools, policy, calls, j, records, []);
    assert calls[j..][0] == calls[j];
  }

  /**
   * A permitted call naming an unregistered tool stops the batch, after the
   * policy check and before any execution, with the records of calls 0..j-1.
   */
  lemma BatchStopsAtMissingTool(tools: map<string, Tool>, policy: Policy, calls: seq<ToolCall>, j: nat,
                                records: seq<ToolCallRecord>)
    requires j < |calls|
    requires AllRunnable(tools, policy, calls[..j])
    requires policy(calls[j]) == Permit && calls[j].name !in tools
    ensures RunBatch(tools, policy, calls, records, [])
         == Missing(records + ExecutedRecords(tools, calls[..j]), calls[j].name)
  {
    BatchPrefix(tools, policy, calls, j, records, []);
    assert calls[j..][0] == calls[j];
  }

  /** A batch only ever appends to the audit list. */
  lemma {:induction false} BatchAppendsRecords(tools: map<string, Tool>, policy: Policy, calls: seq<ToolCall>,
                                               records: seq<ToolCallRecord>, results: seq<ToolResult>)
    ensures records <= RunBatch(tools, policy, calls, records, results).records
    decreases |calls|
  {
    if calls != [] && policy(calls[0]) == Permit && calls[0].name in tools {
      var p := Execute(tools[calls[0].name], calls[0]);
      BatchAppendsRecords(tools, policy, calls[1..], records + [p.0], results + [p.1]);
    }
  }

  // ---------------------------------------------------------------------------
  // Status, iteration count and audit list over a whole run
  // ---------------------------------------------------------------------------

  /** One iteration keeps the iteration count, only appends to the audit list, and sets the status only when it stops. */
  lemma IterationOutcome(env: Env, st: State)
    ensures var step := Iteration(env, st);
      && step.state.result.iterations == st.result.iterations
      && st.result.toolCalls <= step.state.result.toolCalls
      && (step.Next? ==> step.state.result.status == st.result.status)
      && (step.Stop? ==>
            || (step.state.result.status == StatusFailed && step.err.Some?)
            || (step.state.result.status == StatusSucceeded && step.err.None?))
  {
    if NextReply(env, st).Answer? {
      var resp := NextReply(env, st).response;
      if |resp.toolCalls| > 0 {
        BatchAppendsRecords(env.tools, env.policy, resp.toolCalls, st.result.toolCalls, []);
      }
    }
  }

  /** The three possible endings of a run from iteration `it` on. */
  ghost predicate Ending(final: State, err: Option<string>, it: int, maxIterations: int)
  {
    var last := if it < maxIterations then maxIterations else it;
    && it <= final.result.iterations <= last
    && (final.result.status != StatusMaxIterations ==> it < final.result.iterations)
    && ((final.result.status == StatusFailed && err.Some?)
     || (final.result.status == StatusSucceeded && err.None?)
     || (final.result.status == StatusMaxIterations && err.None? && final.result.iterations == last))
  }

  lemma {:induction false} RunFromOutcome(env: Env, st: State, it: int)
    requires st.result.status == StatusSucceeded && st.result.iterations == it
    ensures var (final, err) := RunFrom(env, st, it);
      Ending(final, err, it, env.maxIterations) && st.result.toolCalls <= final.result.toolCalls
    decreases env.maxIterations - it
  {
    if it < env.maxIterations {
      var st1 := st.(result := st.result.(iterations := it + 1));
      IterationOutcome(env, st1);
      match Iteration(env, st1)
      case Stop(final, err) =>
      case Next(st') =>
        RunFromOutcome(env, st', it + 1);
    }
  }

  /**
   * A run ends with exactly one of the statuses succeeded, failed or
   * max_iterations; it returns an error exactly when it failed; its
   * iteration count stays within 0..MaxIterations, and reaches MaxIterations
   * when the bound is exhausted.
   */
  lemma RunOutcome(env: Env, systemPrompt: string, goal: string)
    ensures var (final, err) := RunSpec(env, systemPrompt, goal);
      var bound := if env.maxIterations < 0 then 0 else env.maxIterations;
      && final.result.status in {StatusSucceeded, StatusFailed, StatusMaxIterations}
      && (err.Some? <==> final.result.status == StatusFailed)
      && 0 <= final.result.iterations <= bound
      && (final.result.status == StatusMaxIterations ==> final.result.iterations == bound)
      && (final.result.status != StatusMaxIterations ==> 1 <= final.result.iterations)
  {
    RunFromOutcome(env, State(InitialMessages(systemPrompt, goal), InitialResult, []), 0);
  }

  // ---------------------------------------------------------------------------
  // Token accounting
  // ---------------------------------------------------------------------------

  /** The replies to the first n provider calls of a run. */
  function Consumed(env: Env, n: nat): (rs: seq<Reply>)
    ensures |rs| == n
    ensures forall k :: 0 <= k < n ==> rs[k] == ReplyAt(env.script, env.base + k)
  {
    seq(n, k requires 0 <= k < n => ReplyAt(env.script, env.base + k))
  }

  /** Input tokens over the successful replies in `rs`; a failed call adds none. */
  function SumIn(rs: seq<Reply>): int
  {
    if rs == [] then 0
    else SumIn(rs[..|rs| - 1]) + (if rs[|rs| - 1].Answer? then rs[|rs| - 1].response.tokensIn else 0)
  }

  /** Output tokens over the successful replies in `rs`. */
  function SumOut(rs: seq<Reply>): int
  {
    if rs == [] then 0
    else SumOut(rs[..|rs| - 1]) + (if rs[|rs| - 1].Answer? then rs[|rs| - 1].response.tokensOut else 0)
  }

  /** The token totals of a state account for exactly the provider calls made so far. */
  ghost predicate TokensAccounted(env: Env, st: State)
  {
    && st.result.totalTokensIn == SumIn(Consumed(env, |st.sent|))
    && st.result.totalTokensOut == SumOut(Consumed(env, |st.sent|))
  }

  lemma ConsumedSnoc(env: Env, n: nat)
    ensures Consumed(env, n + 1)[..n] == Consumed(env, n)
    ensures SumIn(Consumed(env, n + 1)) == SumIn(Consumed(env, n))
              + (if ReplyAt(env.script, env.base + n).Answer? then ReplyAt(env.script, env.base + n).response.tokensIn else 0)
    ensures SumOut(Consumed(env, n + 1)) == SumOut(Consumed(env, n))
              + (if ReplyAt(env.script, env.base + n).Answer? then ReplyAt(env.script, env.base + n).response.tokensOut else 0)
  {
    assert Consumed(env, n + 1)[..n] == Consumed(env, n);
  }

  /** A provider call that goes into the totals makes one more accounted call. */
  lemma ReflectTokens(env: Env, st: State)
    requires TokensAccounted(env, st)
    ensures TokensAccounted(env, Reflect(env, st).state)
    ensures |Reflect(env, st).state.sent| == |st.sent| + 1
  {
    ConsumedSnoc(env, |st.sent|);
  }

  /** Each iteration keeps the token totals equal to the sums over the calls made. */
  lemma IterationTokens(env: Env, st: State)
    requires TokensAccounted(env, st)
    ensures TokensAccounted(env, Iteration(env, st).state)
  {
    ConsumedSnoc(env, |st.sent|);
    var sent := st.sent + [st.messages];
    if NextReply(env, st).Answer? {
      var resp := NextReply(env, st).response;
      if |resp.toolCalls| > 0 {
        var st1 := State(st.messages + [Message(RoleAssistant, resp.content)], AddTokens(st.result, resp), sent);
        assert TokensAccounted(env, st1);
        match RunBatch(env.tools, env.policy, resp.toolCalls, st1.result.toolCalls, [])
        case Denied(_, _, _) =>
        case Missing(_, _) =>
        case Completed(records, results) =>
          ReflectTokens(env, State(st1.messages + [Message(RoleUser, ToolResultsText(results))],
                                   st1.result.(toolCalls := records), st1.sent));
      }
    }
  }

  lemma {:induction false} RunFromTokens(env: Env, st: State, it: int)
    requires TokensAccounted(env, st)
    ensures TokensAccounted(env, RunFrom(env, st, it).0)
    decreases env.maxIterations - it
  {
    if it < env.maxIterations {
      var st1 := st.(result := st.result.(iterations := it + 1));
      IterationTokens(env, st1);
      match Iteration(env, st1)
      case Stop(_, _) =>
      case Next(st') => RunFromTokens(env, st', it + 1);
    }
  }

  /**
   * Whatever the outcome, the token totals of a run are the sums of the
   * tokens of the successful provider calls it made; a failed provider call
   * adds nothing. The calls made are exactly the conversations the provider
   * was sent.
   */
  lemma RunTokens(env: Env, systemPrompt: string, goal: string)
    ensures var final := RunSpec(env, systemPrompt, goal).0;
      && final.result.totalTokensIn == SumIn(Consumed(env, |final.sent|))
      && final.result.totalTokensOut == SumOut(Consumed(env, |final.sent|))
  {
    RunFromTokens(env, State(InitialMessages(systemPrompt, goal), InitialResult, []), 0);
  }

  // ---------------------------------------------------------------------------
  // The conversation
  // ---------------------------------------------------------------------------

  /**
   * The conversation grows append-only from `init`: every conversation sent
   * is a prefix of the current one and a proper prefix of every later one.
   */
  ghost predicate Grows(init: seq<Message>, st: State)
  {
    && init <= st.messages
    && (|st.sent| == 0 ==> st.messages == init)
    && (|st.sent| > 0 ==> st.sent[0] == init)
    && (forall i :: 0 <= i < |st.sent| ==> init <= st.sent[i] <= st.messages)
    && (forall i, j :: 0 <= i < j < |st.sent| ==> st.sent[i] < st.sent[j])
  }

  /** Between iterations every conversation sent is a proper prefix of the current one. */
  ghost predicate Ahead(st: State)
  {
    forall i :: 0 <= i < |st.sent| ==> st.sent[i] < st.messages
  }

  /** Sending the current conversation, then appending to it. */
  lemma SendThenAppend(init: seq<Message>, st: State, more: seq<Message>)
    requires Grows(init, st) && Ahead(st)
    ensures var st' := State(st.messages + more, st.result, st.sent + [st.messages]);
      Grows(init, st') && (more != [] ==> Ahead(st'))
  {
    var st' := State(st.messages + more, st.result, st.sent + [st.messages]);
    assert st.messages <= st'.messages;
    forall i | 0 <= i < |st'.sent|
      ensures init <= st'.sent[i] <= st'.messages
    {
      if i < |st.sent| { assert st'.sent[i] == st.sent[i]; }
    }
    forall i, j | 0 <= i < j < |st'.sent|
      ensures st'.sent[i] < st'.sent[j]
    {
      if j < |st.sent| { assert st'.sent[i] == st.sent[i] && st'.sent[j] == st.sent[j]; }
      else { assert st'.sent[i] == st.sent[i]; }
    }
    if more != [] {
      forall i | 0 <= i < |st'.sent|
        ensures st'.sent[i] < st'.messages
      {
        if i < |st.sent| { assert st'.sent[i] == st.sent[i]; }
      }
    }
  }

  /** Appending to the conversation between two calls. */
  lemma AppendOnly(init: seq<Message>, st: State, more: seq<Message>)
    requires Grows(init, st) && Ahead(st) && |st.sent| > 0
    ensures Grows(init, st.(messages := st.messages + more)) && Ahead(st.(messages := st.messages + more))
  {
    var st' := st.(messages := st.messages + more);
    assert st.messages <= st'.messages;
    forall i | 0 <= i < |st'.sent|
      ensures st'.sent[i] < st'.messages
    {
      assert st.sent[i] < st.messages;
    }
  }

  lemma ReflectGrows(env: Env, init: seq<Message>, st: State)
    requires Grows(init, st) && Ahead(st)
    ensures Grows(init, Reflect(env, st).state)
    ensures Reflect(env, st).Next? ==> Ahead(Reflect(env, st).state)
  {
    SendThenAppend(init, st, []);
    if NextReply(env, st).Answer? {
      SendThenAppend(init, st, [Message(RoleAssistant, NextReply(env, st).response.content)]);
    }
  }

  lemma ActGrows(env: Env, init: seq<Message>, st: State, calls: seq<ToolCall>)
    requires Grows(init, st) && Ahead(st) && |st.sent| > 0
    ensures Grows(init, Act(env, st, calls).state)
    ensures Act(env, st, calls).Next? ==> Ahead(Act(env, st, calls).state)
  {
    match RunBatch(env.tools, env.policy, calls, st.result.toolCalls, [])
    case Denied(_, _, _) =>
    case Missing(_, _) =>
    case Completed(records, results) =>
      var text := [Message(RoleUser, ToolResultsText(results))];
      AppendOnly(init, st, text);
      ReflectGrows(env, init, State(st.messages + text, st.result.(toolCalls := records), st.sent));
  }

  lemma IterationGrows(env: Env, init: seq<Message>, st: State)
    requires Grows(init, st) && Ahead(st)
    ensures Grows(init, Iteration(env, st).state)
    ensures Iteration(env, st).Next? ==> Ahead(Iteration(env, st).state)
  {
    SendThenAppend(init, st, []);
    if NextReply(env, st).Answer? {
      var resp := NextReply(env, st).response;
      var assistant := Message(RoleAssistant, resp.content);
      if |resp.toolCalls| == 0 {
        SendThenAppend(init, st, [assistant, Message(RoleUser, ContinuePrompt)]);
        assert st.messages + [assistant] + [Message(RoleUser, ContinuePrompt)]
            == st.messages + [assistant, Message(RoleUser, ContinuePrompt)];
      } else {
        SendThenAppend(init, st, [assistant]);
        ActGrows(env, init, State(st.messages + [assistant], AddTokens(st.result, resp), st.sent + [st.messages]),
                 resp.toolCalls);
      }
    }
  }

  lemma {:induction false} RunFromGrows(env: Env, init: seq<Message>, st: State, it: int)
    requires Grows(init, st) && Ahead(st)
    ensures Grows(init, RunFrom(env, st, it).0)
    decreases env.maxIterations - it
  {
    if it < env.maxIterations {
      var st1 := st.(result := st.result.(iterations := it + 1));
      IterationGrows(env, init, st1);
      match Iteration(env, st1)
      case Stop(_, _) =>
      case Next(st') => RunFromGrows(env, init, st', it + 1);
    }
  }

  /**
   * The first conversation the provider receives is the optional system
   * message followed by the goal; every later one extends every earlier one,
   * and all are prefixes of the final conversation.
   */
  lemma RunConversation(env: Env, systemPrompt: string, goal: string)
    ensures var final := RunSpec(env, systemPrompt, goal).0;
      Grows(InitialMessages(systemPrompt, goal), final)
  {
    var init := InitialMessages(systemPrompt, goal);
    RunFromGrows(env, init, State(init, InitialResult, []), 0);
  }

  // ---------------------------------------------------------------------------
  // Scenarios
  // ---------------------------------------------------------------------------

  /** The state after the first provider call of a run answered with `r1`. */
  function AfterFirstAnswer(systemPrompt: string, goal: string, r1: Response): State
  {
    var init := InitialMessages(systemPrompt, goal);
    State(init + [Message(RoleAssistant, r1.content)], AddTokens(InitialResult.(iterations := 1), r1), [init])
  }

  /** A first answer with tool calls hands the first iteration to the batch. */
  lemma FirstIterationActs(env: Env, systemPrompt: string, goal: string, r1: Response)
    requires 1 <= env.maxIterations
    requires ReplyAt(env.script, env.base) == Answer(r1) && |r1.toolCalls| > 0
    ensures var step := Act(env, AfterFirstAnswer(systemPrompt, goal, r1), r1.toolCalls);
      step.Stop? ==> RunSpec(env, systemPrompt, goal) == (step.state, step.err)
  {
    var init := InitialMessages(systemPrompt, goal);
    var st0 := State(init, InitialResult, []);
    var st1 := st0.(result := InitialResult.(iterations := 1));
    assert NextReply(env, st1) == Answer(r1);
    assert Iteration(env, st1) == Act(env, AfterFirstAnswer(systemPrompt, goal, r1), r1.toolCalls);
    var step := Act(env, AfterFirstAnswer(systemPrompt, goal, r1), r1.toolCalls);
    if step.Stop? {
      RunFromStop(env, st0, 0, step.state, step.err);
    }
  }

  /** A batch whose every call is permitted and registered runs all of them and goes on to the reflection call. */
  lemma ActCompletes(env: Env, st: State, calls: seq<ToolCall>)
    requires AllRunnable(env.tools, env.policy, calls)
    ensures Act(env, st, calls)
         == Reflect(env, State(st.messages + [Message(RoleUser, ToolResultsText(ExecutedResults(env.tools, calls)))],
                               st.result.(toolCalls := st.result.toolCalls + ExecutedRecords(env.tools, calls)), st.sent))
  {
    BatchCompletes(env.tools, env.policy, calls, st.result.toolCalls);
  }

  /** A reflection answered with no tool calls and stop reason end_turn ends the run as succeeded. */
  lemma ReflectSucceeds(env: Env, st: State, r2: Response)
    requires NextReply(env, st) == Answer(r2) && r2.toolCalls == [] && r2.stopReason == EndTurn
    ensures Reflect(env, st) == Stop(State(st.messages + [Message(RoleAssistant, r2.content)],
                                           AddTokens(st.result, r2).(finalResponse := r2.content, status := StatusSucceeded),
                                           st.sent + [st.messages]), None)
  {
  }

  /** The state after the first iteration's tool calls all ran, before the reflection call. */
  function AfterBatch(env: Env, systemPrompt: string, goal: string, r1: Response): State
    requires AllRunnable(env.tools, env.policy, r1.toolCalls)
  {
    var st := AfterFirstAnswer(systemPrompt, goal, r1);
    State(st.messages + [Message(RoleUser, ToolResultsText(ExecutedResults(env.tools, r1.toolCalls)))],
          st.result.(toolCalls := ExecutedRecords(env.tools, r1.toolCalls)), st.sent)
  }

  /** The final state of a run whose first iteration's reflection answered with `r2`. */
  function AfterReflection(env: Env, systemPrompt: string, goal: string, r1: Response, r2: Response): State
    requires AllRunnable(env.tools, env.policy, r1.toolCalls)
  {
    var st := AfterBatch(env, systemPrompt, goal, r1);
    State(st.messages + [Message(RoleAssistant, r2.content)],
          AddTokens(st.result, r2).(finalResponse := r2.content, status := StatusSucceeded),
          st.sent + [st.messages])
  }

  /** The run of `ToolCallsThenAnswer` ends after its first reflection, in `AfterReflection`. */
  lemma ToolCallsThenAnswerRun(env: Env, systemPrompt: string, goal: string, r1: Response, r2: Response)
    requires 1 <= env.maxIterations
    requires ReplyAt(env.script, env.base) == Answer(r1) && ReplyAt(env.script, env.base + 1) == Answer(r2)
    requires |r1.toolCalls| > 0 && AllRunnable(env.tools, env.policy, r1.toolCalls)
    requires r2.toolCalls == [] && r2.stopReason == EndTurn
    ensures RunSpec(env, systemPrompt, goal) == (AfterReflection(env, systemPrompt, goal, r1, r2), None)
  {
    var st := AfterFirstAnswer(systemPrompt, goal, r1);
    ActCompletes(env, st, r1.toolCalls);
    var records := ExecutedRecords(env.tools, r1.toolCalls);
    assert [] + records == records;
    var st' := AfterBatch(env, systemPrompt, goal, r1);
    assert NextReply(env, st') == Answer(r2);
    ReflectSucceeds(env, st', r2);
    FirstIterationActs(env, systemPrompt, goal, r1);
  }

  /**
   * One reply with permitted, registered tool calls, then a final answer
   * with no tool calls and stop reason end_turn: the run succeeds in one
   * iteration, whatever the tools answered, with one audit record per call
   * and the tokens of both calls.
   */
  lemma ToolCallsThenAnswer(env: Env, systemPrompt: string, goal: string, r1: Response, r2: Response)
    requires 1 <= env.maxIterations
    requires ReplyAt(env.script, env.base) == Answer(r1) && ReplyAt(env.script, env.base + 1) == Answer(r2)
    requires |r1.toolCalls| > 0 && AllRunnable(env.tools, env.policy, r1.toolCalls)
    requires r2.toolCalls == [] && r2.stopReason == EndTurn
    ensures var (final, err) := RunSpec(env, systemPrompt, goal);
      && err == None
      && final.result.status == StatusSucceeded
      && final.result.iterations == 1
      && final.result.toolCalls == ExecutedRecords(env.tools, r1.toolCalls)
      && final.result.finalResponse == r2.content
      && final.result.totalTokensIn == r1.tokensIn + r2.tokensIn
      && final.result.totalTokensOut == r1.tokensOut + r2.tokensOut
      && |final.sent| == 2
  {
    ToolCallsThenAnswerRun(env, systemPrompt, goal, r1, r2);
  }

  /**
   * A denied tool call ends the run as failed in the iteration that made it,
   * with the records of the calls before it, and without a reflection call.
   */
  lemma DeniedToolCallFailsRun(env: Env, systemPrompt: string, goal: string, r1: Response, j: nat)
    requires 1 <= env.maxIterations
    requires ReplyAt(env.script, env.base) == Answer(r1)
    requires j < |r1.toolCalls| && AllRunnable(env.tools, env.policy, r1.toolCalls[..j])
    requires env.policy(r1.toolCalls[j]).Deny?
    ensures var (final, err) := RunSpec(env, systemPrompt, goal);
      var reason := env.policy(r1.toolCalls[j]).reason;
      && err == Some("policy violation: " + reason)
      && final.result.status == StatusFailed
      && final.result.error == "Policy violation for tool " + r1.toolCalls[j].name + ": " + reason
      && final.result.toolCalls == ExecutedRecords(env.tools, r1.toolCalls[..j])
      && final.result.iterations == 1
      && |final.sent| == 1
  {
    var st := AfterFirstAnswer(systemPrompt, goal, r1);
    var records := ExecutedRecords(env.tools, r1.toolCalls[..j]);
    BatchStopsAtDenial(env.tools, env.policy, r1.toolCalls, j, []);
    assert [] + records == records;
    assert Act(env, st, r1.toolCalls).Stop?;
    FirstIterationActs(env, systemPrompt, goal, r1);
  }

  /** A permitted call to an unregistered tool ends the run as failed, naming the tool. */
  lemma MissingToolFailsRun(env: Env, systemPrompt: string, goal: string, r1: Response, j: nat)
    requires 1 <= env.maxIterations
    requires ReplyAt(env.script, env.base) == Answer(r1)
    requires j < |r1.toolCalls| && AllRunnable(env.tools, env.policy, r1.toolCalls[..j])
    requires env.policy(r1.toolCalls[j]) == Permit && r1.toolCalls[j].name !in env.tools
    ensures var (final, err) := RunSpec(env, systemPrompt, goal);
      var name := r1.toolCalls[j].name;
      && err == Some("tool not found: " + name)
      && final.result.status == StatusFailed
      && final.result.error == "Tool not found: " + name
      && final.result.toolCalls == ExecutedRecords(env.tools, r1.toolCalls[..j])
      && final.result.iterations == 1
      && |final.sent| == 1
  {
    var st := AfterFirstAnswer(systemPrompt, goal, r1);
    var records := ExecutedRecords(env.tools, r1.toolCalls[..j]);
    BatchStopsAtMissingTool(env.tools, env.policy, r1.toolCalls, j, []);
    assert [] + records == records;
    assert Act(env, st, r1.toolCalls).Stop?;
    FirstIterationActs(env, systemPrompt, goal, r1);
  }

  /** A failing first provider call ends the run as failed after one iteration, with no tokens counted. */
  lemma ProviderFailureFailsRun(env: Env, systemPrompt: string, goal: string, e: string)
    requires 1 <= env.maxIterations
    requires ReplyAt(env.script, env.base) == Failure(e)
    ensures var (final, err) := RunSpec(env, systemPrompt, goal);
      && err == Some(e)
      && final.result.status == StatusFailed
      && final.result.error == "LLM call failed: " + e
      && final.result.iterations == 1
      && final.result.totalTokensIn == 0 && final.result.totalTokensOut == 0
      && final.result.toolCalls == []
      && final.sent == [InitialMessages(systemPrompt, goal)]
  {
  }

  /** The reply to call k is an answer without tool calls. */
  ghost predicate Chat(env: Env, k: int)
  {
    k >= 0 && ReplyAt(env.script, env.base + k).Answer? && ReplyAt(env.script, env.base + k).response.toolCalls == []
  }

  /** Replies without tool calls never end the loop by themselves. */
  ghost predicate ChatsOnly(env: Env, from: int, to: int)
  {
    forall k :: from <= k < to ==> Chat(env, k)
  }

  lemma {:induction false} RunFromChatsOnly(env: Env, st: State, it: nat)
    requires |st.sent| == it && st.result.iterations == it
    requires ChatsOnly(env, it, env.maxIterations)
    ensures var (final, err) := RunFrom(env, st, it);
      var last := if it < env.maxIterations then env.maxIterations else it;
      && err == None
      && final.result.status == StatusMaxIterations
      && final.result.iterations == last
      && |final.sent| == last
    decreases env.maxIterations - it
  {
    if it < env.maxIterations {
      var st1 := st.(result := st.result.(iterations := it + 1));
      assert Chat(env, it);
      RunFromChatsOnly(env, Iteration(env, st1).state, it + 1);
    }
  }

  /**
   * When every reply within the bound is an answer without tool calls, the
   * loop keeps prompting the model to continue and ends with max_iterations
   * after exactly MaxIterations provider calls.
   */
  lemma RunWithoutToolCalls(env: Env, systemPrompt: string, goal: string)
    requires 0 <= env.maxIterations
    requires ChatsOnly(env, 0, env.maxIterations)
    ensures var (final, err) := RunSpec(env, systemPrompt, goal);
      && err == None
      && final.result.status == StatusMaxIterations
      && final.result.iterations == env.maxIterations
      && |final.sent| == env.maxIterations
  {
    RunFromChatsOnly(env, State(InitialMessages(systemPrompt, goal), InitialResult, []), 0);
  }

  /** The listing the stub tool answers with. */
  const PodsJson := "{\"pods\": [{\"name\": \"test-pod\"}]}"

  /**
   * A concrete run: one call to the resource-listing tool with 100 input and
   * 50 output tokens, then a final answer with 200 and 30, under a policy
   * that allows everything, gives a succeeded run after one iteration with
   * one audit record and 300 input and 80 output tokens in total.
   */
  lemma SingleToolCallExample()
    ensures var tc := ToolCall("1", "k8s_get_resources", map["namespace" := Str("default"), "resourceType" := Str("pods")]);
      var r1 := Response("I've analyzed the goal and here's the plan", [tc], "tool_use", 100, 50);
      var r2 := Response("Based on the results, I'm confident the goal is achieved", [], EndTurn, 200, 30);
      var env := Env(map["k8s_get_resources" := (i: Input) => Output(PodsJson)], (c: ToolCall) => Permit,
                     [Answer(r1), Answer(r2)], 0, 3);
      var (final, err) := RunSpec(env, "", "Check pods in default namespace");
      && err == None
      && final.result.status == StatusSucceeded
      && final.result.iterations == 1
      && final.result.totalTokensIn == 300
      && final.result.totalTokensOut == 80
      && final.result.toolCalls == [ToolCallRecord("1", "k8s_get_resources", tc.input, PodsJson, "")]
      && final.result.finalResponse == "Based on the results, I'm confident the goal is achieved"
  {
    var tc := ToolCall("1", "k8s_get_resources", map["namespace" := Str("default"), "resourceType" := Str("pods")]);
    var r1 := Response("I've analyzed the goal and here's the plan", [tc], "tool_use", 100, 50);
    var r2 := Response("Based on the results, I'm confident the goal is achieved", [], EndTurn, 200, 30);
    var env := Env(map["k8s_get_resources" := (i: Input) => Output(PodsJson)], (c: ToolCall) => Permit,
                   [Answer(r1), Answer(r2)], 0, 3);
    ToolCallsThenAnswer(env, "", "Check pods in default namespace", r1, r2);
  }
}
