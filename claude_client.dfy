/**
 * The Claude provider: it turns the agent's conversation into a Messages
 * API request and the API's answer back into a provider response.
 *
 * The conversions are loops in the client (`ConvertMessages`,
 * `ConvertResponse`), proved against the functions `Wire`, `SystemPrompt`,
 * `TextOf` and `ToolUses`. The HTTP exchange, which also covers JSON
 * encoding and decoding, is a parameter of `Call`.
 */
module Claude {
  import opened Wrappers
  import opened Values
  import opened Agent
  import opened Fmt

  const ApiUrl := "https://api.anthropic.com/v1/messages"
  const ApiVersion := "2023-06-01"
  const DefaultModel := "claude-3-5-sonnet-20241022"
  const DefaultMaxTokens := 4096

  const BlockText := "text"
  const BlockToolUse := "tool_use"

  /** A tool definition offered to the model. */
  datatype ToolSpec = ToolSpec(name: string, description: string, inputSchema: map<string, Value>)

  /** One content block; which fields matter depends on `kind` ("text", "tool_use", ...). */
  datatype ContentBlock = ContentBlock(kind: string, text: string, id: string, name: string, input: Input)

  datatype ClaudeMessage = ClaudeMessage(role: string, content: seq<ContentBlock>)

  datatype MessagesRequest = MessagesRequest(
    model: string,
    maxTokens: int,
    messages: seq<ClaudeMessage>,
    tools: seq<ToolSpec>,
    system: string)

  datatype MessagesResponse = MessagesResponse(
    content: seq<ContentBlock>,
    stopReason: string,
    inputTokens: int,
    outputTokens: int)

  /**
   * How one HTTP exchange went: the request could not be sent, the body could
   * not be read, or a status and body came back, together with what decoding
   * that body as a Messages response gives.
   */
  datatype HttpOutcome =
    | RequestFailed(error: string)
    | ReadFailed(error: string)
    | Received(status: int, body: string, decoded: Result<MessagesResponse>)

  /** The HTTP exchange with the API, as what it gives for each request. */
  type Transport = MessagesRequest -> HttpOutcome

  function TextBlock(t: string): ContentBlock
  {
    ContentBlock(BlockText, t, "", "", map[])
  }

  /** The Messages API form of one conversation turn: the same role, one text block. */
  function WireMessage(m: Message): ClaudeMessage
  {
    ClaudeMessage(m.role, [TextBlock(m.content)])
  }

  /** The conversation without its system messages, each turn in wire form, in order. */
  function Wire(messages: seq<Message>): seq<ClaudeMessage>
  {
    if messages == [] then []
    else
      var last := messages[|messages| - 1];
      Wire(messages[..|messages| - 1]) + (if last.role == RoleSystem then [] else [WireMessage(last)])
  }

  /** The system prompt sent: the content of the last system message, or empty. */
  function SystemPrompt(messages: seq<Message>): string
  {
    if messages == [] then ""
    else
      var last := messages[|messages| - 1];
      if last.role == RoleSystem then last.content else SystemPrompt(messages[..|messages| - 1])
  }

  /** The concatenated text of the text blocks, in order; other blocks add nothing. */
  function TextOf(blocks: seq<ContentBlock>): string
  {
    if blocks == [] then ""
    else
      var last := blocks[|blocks| - 1];
      TextOf(blocks[..|blocks| - 1]) + (if last.kind == BlockText then last.text else "")
  }

  function CallOf(b: ContentBlock): ToolCall
  {
    ToolCall(b.id, b.name, b.input)
  }

  /** The tool calls of the tool_use blocks, in order. */
  function ToolUses(blocks: seq<ContentBlock>): seq<ToolCall>
  {
    if blocks == [] then []
    else
      var last := blocks[|blocks| - 1];
      ToolUses(blocks[..|blocks| - 1]) + (if last.kind == BlockToolUse then [CallOf(last)] else [])
  }

  /** A Claude client: credentials, model, output budget and the tools offered. */
  datatype Client = Client(apiKey: string, model: string, maxTokens: int, tools: seq<ToolSpec>)
  {
    /** Splits the conversation into the system prompt and the remaining turns. */
    method ConvertMessages(messages: seq<Message>) returns (wire: seq<ClaudeMessage>, system: string)
      ensures wire == Wire(messages) && system == SystemPrompt(messages)
    {
      wire := [];
      system := "";
      var i := 0;
      while i < |messages|
        invariant 0 <= i <= |messages|
        invariant wire == Wire(messages[..i]) && system == SystemPrompt(messages[..i])
      {
        var msg := messages[i];
        assert messages[..i + 1][..i] == messages[..i];
        if msg.role == RoleSystem {
          system := msg.content;
        } else {
          wire := wire + [WireMessage(msg)];
        }
        i := i + 1;
      }
      assert messages[..i] == messages;
    }

    /** The provider response: stop reason and token counts copied, text concatenated, tool calls collected. */
    method ConvertResponse(resp: MessagesResponse) returns (r: Response)
      ensures r == Response(TextOf(resp.content), ToolUses(resp.content), resp.stopReason,
                            resp.inputTokens, resp.outputTokens)
    {
      r := Response("", [], resp.stopReason, resp.inputTokens, resp.outputTokens);
      var i := 0;
      while i < |resp.content|
        invariant 0 <= i <= |resp.content|
        invariant r == Response(TextOf(resp.content[..i]), ToolUses(resp.content[..i]), resp.stopReason,
                                resp.inputTokens, resp.outputTokens)
      {
        var block := resp.content[i];
        assert resp.content[..i + 1][..i] == resp.content[..i];
        if block.kind == BlockText {
          r := r.(content := r.content + block.text);
        } else if block.kind == BlockToolUse {
          r := r.(toolCalls := r.toolCalls + [CallOf(block)]);
        }
        i := i + 1;
      }
      assert resp.content[..i] == resp.content;
    }

    /** The request body for a conversation. */
    function Request(messages: seq<Message>): (req: MessagesRequest)
      ensures req.model == model && req.maxTokens == maxTokens && req.tools == tools
      ensures forall i :: 0 <= i < |req.messages| ==> req.messages[i].role != RoleSystem
      ensures req.system == SystemPrompt(messages)
    {
      WireHasNoSystem(messages);
      MessagesRequest(model, maxTokens, Wire(messages), tools, SystemPrompt(messages))
    }

    /**
     * One call: the request is built from the conversation and sent; a
     * failed exchange, a status other than 200 or a body that does not decode
     * is an error, otherwise the decoded answer is converted.
     */
    method Call(messages: seq<Message>, transport: Transport) returns (r: Result<Response>)
      ensures match transport(Request(messages))
        case RequestFailed(e) => r == Err("request failed: " + e)
        case ReadFailed(e) => r == Err("failed to read response: " + e)
        case Received(status, body, decoded) =>
          if status != 200 then r == Err("API error (status " + Itoa(status) + "): " + body)
          else if decoded.Err? then r == Err("failed to parse response: " + decoded.error)
          else r == Ok(Response(TextOf(decoded.value.content), ToolUses(decoded.value.content),
                                decoded.value.stopReason, decoded.value.inputTokens, decoded.value.outputTokens))
    {
      var wire, system := ConvertMessages(messages);
      var req := MessagesRequest(model, maxTokens, wire, tools, system);
      var outcome := transport(req);
      match outcome {
        case RequestFailed(e) =>
          return Err("request failed: " + e);
        case ReadFailed(e) =>
          return Err("failed to read response: " + e);
        case Received(status, body, decoded) =>
          if status != 200 {
            return Err("API error (status " + Itoa(status) + "): " + body);
          }
          if decoded.Err? {
            return Err("failed to parse response: " + decoded.error);
          }
          var resp := ConvertResponse(decoded.value);
          return Ok(resp);
      }
    }
  }

  /** A client for the default model with a 4096-token output budget and no tools. */
  function NewClient(apiKey: string): (c: Client)
    ensures c.apiKey == apiKey && c.model == DefaultModel && c.maxTokens == DefaultMaxTokens && c.tools == []
  {
    Client(apiKey, DefaultModel, DefaultMaxTokens, [])
  }

  /** No system message is sent as a turn. */
  lemma {:induction false} WireHasNoSystem(messages: seq<Message>)
    ensures forall i :: 0 <= i < |Wire(messages)| ==> Wire(messages)[i].role != RoleSystem
  {
    if messages != [] {
      WireHasNoSystem(messages[..|messages| - 1]);
    }
  }

  /** The conversation without its system messages, in order. */
  function NonSystem(messages: seq<Message>): seq<Message>
  {
    if messages == [] then []
    else
      var last := messages[|messages| - 1];
      NonSystem(messages[..|messages| - 1]) + (if last.role == RoleSystem then [] else [last])
  }

  /** The agent message a wire message stands for: its role and the text of its blocks. */
  function Unwire(cm: ClaudeMessage): Message
  {
    Message(cm.role, TextOf(cm.content))
  }

  /**
   * Nothing but the system messages is lost on the way out: reading each
   * wire message back gives exactly the non-system turns, in order.
   */
  lemma {:induction false} WireRoundTrip(messages: seq<Message>)
    ensures |Wire(messages)| == |NonSystem(messages)|
    ensures forall i :: 0 <= i < |Wire(messages)| ==> Unwire(Wire(messages)[i]) == NonSystem(messages)[i]
  {
    if messages != [] {
      var init := messages[..|messages| - 1];
      var last := messages[|messages| - 1];
      WireRoundTrip(init);
      if last.role != RoleSystem {
        var w := Wire(messages);
        assert w[|w| - 1] == WireMessage(last);
        assert TextOf([TextBlock(last.content)]) == last.content by {
          assert [TextBlock(last.content)][..0] == [];
        }
      }
    }
  }

  /** The system prompt is the content of the last system message. */
  lemma {:induction false} SystemPromptIsLast(messages: seq<Message>, i: nat)
    requires i < |messages| && messages[i].role == RoleSystem
    requires forall j :: i < j < |messages| ==> messages[j].role != RoleSystem
    ensures SystemPrompt(messages) == messages[i].content
  {
    if i < |messages| - 1 {
      var init := messages[..|messages| - 1];
      SystemPromptIsLast(init, i);
    }
  }

  /** Without a system message no system prompt is sent. */
  lemma {:induction false} NoSystemPrompt(messages: seq<Message>)
    requires forall j :: 0 <= j < |messages| ==> messages[j].role != RoleSystem
    ensures SystemPrompt(messages) == ""
  {
    if messages != [] {
      NoSystemPrompt(messages[..|messages| - 1]);
    }
  }

  /** The text of consecutive runs of blocks is the text of each, joined. */
  lemma {:induction false} TextOfAppend(a: seq<ContentBlock>, b: seq<ContentBlock>)
    ensures TextOf(a + b) == TextOf(a) + TextOf(b)
    decreases |b|
  {
    if b == [] {
      assert a + b == a;
    } else {
      var b' := b[..|b| - 1];
      assert (a + b)[..|a + b| - 1] == a + b';
      TextOfAppend(a, b');
    }
  }

  /** The tool calls of consecutive runs of blocks are those of each, joined. */
  lemma {:induction false} ToolUsesAppend(a: seq<ContentBlock>, b: seq<ContentBlock>)
    ensures ToolUses(a + b) == ToolUses(a) + ToolUses(b)
    decreases |b|
  {
    if b == [] {
      assert a + b == a;
    } else {
      var b' := b[..|b| - 1];
      assert (a + b)[..|a + b| - 1] == a + b';
      ToolUsesAppend(a, b');
    }
  }

  /** A tool call is in the response exactly when a tool_use block carries it. */
  lemma {:induction false} ToolUsesExactly(blocks: seq<ContentBlock>, tc: ToolCall)
    ensures tc in ToolUses(blocks) <==>
      exists j :: 0 <= j < |blocks| && blocks[j].kind == BlockToolUse && CallOf(blocks[j]) == tc
  {
    if blocks != [] {
      var init := blocks[..|blocks| - 1];
      ToolUsesExactly(init, tc);
      if exists j :: 0 <= j < |init| && init[j].kind == BlockToolUse && CallOf(init[j]) == tc {
        var j :| 0 <= j < |init| && init[j].kind == BlockToolUse && CallOf(init[j]) == tc;
        assert blocks[j] == init[j];
      }
      if exists j :: 0 <= j < |blocks| && blocks[j].kind == BlockToolUse && CallOf(blocks[j]) == tc {
        var j :| 0 <= j < |blocks| && blocks[j].kind == BlockToolUse && CallOf(blocks[j]) == tc;
        if j < |init| {
          assert init[j] == blocks[j];
        }
      }
    }
  }

  /** An answer without tool_use blocks has no tool calls, so the agent loop takes it as final. */
  lemma {:induction false} NoToolUseNoCalls(blocks: seq<ContentBlock>)
    requires forall j :: 0 <= j < |blocks| ==> blocks[j].kind != BlockToolUse
    ensures ToolUses(blocks) == []
  {
    if blocks != [] {
      NoToolUseNoCalls(blocks[..|blocks| - 1]);
    }
  }

  /** A text block followed by a tool_use block: the text is the content, the block the one tool call. */
  lemma TextThenToolUse(t: string, id: string, name: string, input: Input)
    ensures var blocks := [TextBlock(t), ContentBlock(BlockToolUse, "", id, name, input)];
      TextOf(blocks) == t && ToolUses(blocks) == [ToolCall(id, name, input)]
  {
    var blocks := [TextBlock(t), ContentBlock(BlockToolUse, "", id, name, input)];
    assert blocks[..1] == [TextBlock(t)];
    assert blocks[..1][..0] == [];
    assert BlockToolUse != BlockText by {
      assert |BlockToolUse| != |BlockText|;
    }
    assert TextOf(blocks[..1]) == t;
    assert ToolUses(blocks[..1]) == [];
  }
}
