/**
 * The policy gate backed by Open Policy Agent: a Rego module compiled once,
 * then the query `data.agent.tools.allow` evaluated for every tool call. It
 * fails closed: anything but a first result that is the boolean true denies.
 *
 * The Rego compiler and evaluator are not modelled; they are parameters
 * (`Compiler`, `Evaluator`) whose answers the gate interprets.
 */
module Opa {
  import opened Wrappers
  import opened Values
  import opened Agent
  import opened AgentLoop

  const AllowQuery := "data.agent.tools.allow"
  const ModuleName := "agent.rego"

  /** What evaluating the prepared query gives: an error, or the value of each result's first expression. */
  datatype Evaluation = EvalError(message: string) | Results(values: seq<Value>)

  /** A prepared query, as the evaluation it gives for each input document. */
  type Evaluator = map<string, Value> -> Evaluation

  /** What preparing a query gives: a compile error or a prepared query. */
  datatype Prepared = CompileError(message: string) | Query(eval: Evaluator)

  /** Prepares a query from the query text, the module name and text, and the optional data document. */
  type Compiler = (string, string, string, Option<map<string, Value>>) -> Prepared

  /**
   * The input document for one tool call: the key "tool" bound to the tool
   * name, overlaid with every field of the call's input.
   */
  function PolicyInput(tc: ToolCall): (doc: map<string, Value>)
    ensures doc.Keys == {"tool"} + tc.input.Keys
    ensures forall k :: k in tc.input ==> doc[k] == tc.input[k]
    ensures "tool" !in tc.input ==> doc["tool"] == Str(tc.name)
  {
    map["tool" := Str(tc.name)] + tc.input
  }

  /** How the gate reads an evaluation. */
  function Decide(ev: Evaluation): (v: Verdict)
    ensures v == Permit <==> ev.Results? && |ev.values| > 0 && ev.values[0] == Bool(true)
    ensures ev.EvalError? ==> v == Deny("policy evaluation failed: " + ev.message)
    ensures ev.Results? && ev.values == [] ==> v == Deny("policy denied: no matching allow rule")
    ensures ev.Results? && |ev.values| > 0 && !ev.values[0].Bool? ==> v == Deny("policy denied: invalid result type")
    ensures ev.Results? && |ev.values| > 0 && ev.values[0] == Bool(false) ==> v == Deny("policy denied: allow rule returned false")
  {
    match ev
    case EvalError(e) => Deny("policy evaluation failed: " + e)
    case Results(values) =>
      if |values| == 0 then Deny("policy denied: no matching allow rule")
      else if !values[0].Bool? then Deny("policy denied: invalid result type")
      else if !values[0].b then Deny("policy denied: allow rule returned false")
      else Permit
  }

  /** The gate as the loop sees it, once the query is prepared. */
  function AsPolicy(eval: Evaluator): Policy
  {
    tc => Decide(eval(PolicyInput(tc)))
  }

  class OpaPolicy {
    const policyContent: string
    /** The data document; None is a nil map, for which no store is added. */
    const data: Option<map<string, Value>>
    var query: Option<Evaluator>

    constructor (policyContent: string, data: Option<map<string, Value>>)
      ensures this.policyContent == policyContent && this.data == data && query == None
    {
      this.policyContent := policyContent;
      this.data := data;
      query := None;
    }

    /** Compiles the module and prepares the allow query; on a compile error the query is left as it was. */
    method Initialize(compile: Compiler) returns (err: Option<string>)
      modifies this
      ensures var p := compile(AllowQuery, ModuleName, policyContent, data);
        && (p.CompileError? ==> err == Some("failed to compile policy: " + p.message) && query == old(query))
        && (p.Query? ==> err == None && query == Some(p.eval))
    {
      var prepared := compile(AllowQuery, ModuleName, policyContent, data);
      if prepared.CompileError? {
        return Some("failed to compile policy: " + prepared.message);
      }
      query := Some(prepared.eval);
      return None;
    }

    /** Checks one tool call: builds the input document field by field, evaluates, and fails closed. */
    method Allow(toolCall: ToolCall) returns (v: Verdict)
      requires query.Some?
      ensures v == AsPolicy(query.value)(toolCall)
    {
      var input: map<string, Value> := map["tool" := Str(toolCall.name)];
      var pending := toolCall.input.Keys;
      while pending != {}
        invariant pending <= toolCall.input.Keys
        invariant input.Keys == {"tool"} + (toolCall.input.Keys - pending)
        invariant forall k :: k in toolCall.input && k !in pending ==> input[k] == toolCall.input[k]
        invariant "tool" in pending || "tool" !in toolCall.input ==> input["tool"] == Str(toolCall.name)
        decreases pending
      {
        var k :| k in pending;
        input := input[k := toolCall.input[k]];
        pending := pending - {k};
      }
      assert input == PolicyInput(toolCall);

      var results := query.value(input);
      if results.EvalError? {
        return Deny("policy evaluation failed: " + results.message);
      }
      if |results.values| == 0 {
        return Deny("policy denied: no matching allow rule");
      }
      var first := results.values[0];
      if !first.Bool? {
        return Deny("policy denied: invalid result type");
      }
      if !first.b {
        return Deny("policy denied: allow rule returned false");
      }
      return Permit;
    }
  }

  /**
   * The verdict depends only on the tool name and input, never on the call
   * id: two calls that differ only in their ids get the same verdict.
   */
  lemma VerdictIgnoresCallId(eval: Evaluator, a: ToolCall, b: ToolCall)
    requires a.name == b.name && a.input == b.input
    ensures AsPolicy(eval)(a) == AsPolicy(eval)(b)
  {
    assert PolicyInput(a) == PolicyInput(b);
    assert AsPolicy(eval)(a) == Decide(eval(PolicyInput(a)));
    assert AsPolicy(eval)(b) == Decide(eval(PolicyInput(b)));
  }

  /**
   * The policy sees the tool name under "tool" only when the input has no
   * field of that name: an input field "tool" replaces it.
   */
  lemma InputFieldToolReplacesName(tc: ToolCall)
    requires "tool" in tc.input
    ensures PolicyInput(tc)["tool"] == tc.input["tool"]
    ensures tc.input["tool"] != Str(tc.name) ==> PolicyInput(tc)["tool"] != Str(tc.name)
  {
  }

  /** A policy whose allow rule never yields true denies every tool call. */
  lemma NeverTrueDeniesAll(eval: Evaluator, tc: ToolCall)
    requires forall doc :: eval(doc).Results? ==> forall i :: 0 <= i < |eval(doc).values| ==> eval(doc).values[i] != Bool(true)
    ensures AsPolicy(eval)(tc).Deny?
  {
    var doc := PolicyInput(tc);
    if eval(doc).Results? && |eval(doc).values| > 0 {
      assert eval(doc).values[0] != Bool(true);
    }
  }
}
