/**
 * The chat service: a user's message goes to the AI client, whose turn may
 * end with a request to confirm an operation; the confirmation comes back
 * separately and only then runs the tool with `confirmed` set.
 */
module ChatService {
  import opened Wrappers
  import opened Text
  import opened Tools
  import opened ChatClient
  import Intents

  /** What the front end needs to confirm an operation: the tool and its arguments. */
  datatype ConfirmationData = ConfirmationData(toolName: string, arguments: Args)

  /** The structured data of a reply: a tool's data, or the suggestions for an unrecognised request. */
  datatype ChatData = ToolData(data: Data) | Suggestions(items: seq<string>)

  datatype ChatResponse = ChatResponse(
    reply: string,
    intent: Intents.Intent,
    data: ChatData,
    requiresConfirmation: bool,
    confirmationData: Option<ConfirmationData>)

  /** A reply or an error, and the tool execution the request caused, if any. */
  datatype Handled = Handled(outcome: Result<ChatResponse, string>, execution: Option<Execution>)

  const Unavailable := "AI chat service is currently unavailable. Please contact support."
  const Cancelled := "Operation cancelled."
  const ProcessErrorPrefix := "failed to process message: "
  const ServerMissing := "MCP server not initialized"
  const ExecuteErrorPrefix := "failed to execute operation: "
  const OperationFailedPrefix := "Operation failed: "

  /** A reply with nothing but text: intent unknown, no data, nothing to confirm. */
  function Plain(reply: string): ChatResponse {
    ChatResponse(reply, Intents.IntentUnknown, ToolData(NoData), false, None)
  }

  class Service {
    const mcpServer: MCPServer?
    const aiClient: AIClient?

    /**
     * `NewService`: always builds the tool registry; the AI client exists
     * only when its configuration loads, and then shares the registry.
     */
    constructor (aiConfigured: bool)
      ensures mcpServer != null && fresh(mcpServer)
      ensures Guarded(mcpServer.tools) && mcpServer.tools == Wire(Catalog())
      ensures aiClient != null <==> aiConfigured
      ensures aiClient != null ==> fresh(aiClient) && aiClient.mcpServer == mcpServer
    {
      var server := new MCPServer();
      mcpServer := server;
      if aiConfigured {
        aiClient := new AIClient(server);
      } else {
        aiClient := null;
      }
    }

    /** The AI client and the registry are wired together as `NewService` wires them. */
    ghost predicate Wired()
      reads this, mcpServer
    {
      mcpServer != null && aiClient != null && aiClient.mcpServer == mcpServer
    }

    /**
     * `ProcessMessage`: without an AI client, a fixed apology and no
     * error; an error of the turn is wrapped; otherwise the turn's reply
     * and data, with confirmation data exactly when confirmation is needed.
     */
    function ProcessMessage(userId: string, message: string, first: HttpAnswer, second: HttpAnswer,
                            answers: Answers, fmt: Fmt, decodeArgs: string -> Option<Args>): (h: Handled)
      reads if aiClient != null then {aiClient.mcpServer} else {}
      ensures aiClient == null ==> h == Handled(Ok(Plain(Unavailable)), None)
      ensures aiClient != null ==>
        var t := aiClient.ProcessMessage(userId, message, first, second, answers, fmt, decodeArgs);
        h.execution == t.execution &&
        (t.outcome.Err? ==> h.outcome == Err(ProcessErrorPrefix + t.outcome.error)) &&
        (t.outcome.Ok? ==>
           h.outcome.Ok? &&
           h.outcome.value.reply == t.outcome.value.reply &&
           h.outcome.value.data == ToolData(t.outcome.value.data) &&
           h.outcome.value.requiresConfirmation == t.outcome.value.requiresConfirmation)
      ensures h.outcome.Ok? ==> h.outcome.value.intent == Intents.IntentUnknown
      ensures h.outcome.Ok? ==> (h.outcome.value.confirmationData.Some? <==> h.outcome.value.requiresConfirmation)
      ensures aiClient != null && h.outcome.Ok? && h.outcome.value.requiresConfirmation ==>
        var r := aiClient.ProcessMessage(userId, message, first, second, answers, fmt, decodeArgs).outcome.value;
        h.outcome.value.confirmationData == Some(ConfirmationData(r.toolName, r.arguments))
    {
      if aiClient == null then Handled(Ok(Plain(Unavailable)), None)
      else
        var t := aiClient.ProcessMessage(userId, message, first, second, answers, fmt, decodeArgs);
        match t.outcome
        case Err(e) => Handled(Err(ProcessErrorPrefix + e), t.execution)
        case Ok(r) =>
          var confirmation := if r.requiresConfirmation then Some(ConfirmationData(r.toolName, r.arguments)) else None;
          Handled(Ok(ChatResponse(r.reply, Intents.IntentUnknown, ToolData(r.data), r.requiresConfirmation, confirmation)),
                  t.execution)
    }

    /**
     * `ProcessConfirmation`: without a registry, an error; a decline
     * cancels without executing anything; an acceptance executes the tool
     * once with `confirmed` set, and its error, failure or success decides
     * the reply.
     */
    function ProcessConfirmation(userId: string, toolName: string, args: Args, confirmed: bool,
                                 answers: Answers, fmt: Fmt): (h: Handled)
      reads mcpServer
      ensures mcpServer == null ==> h == Handled(Err(ServerMissing), None)
      ensures mcpServer != null && !confirmed ==> h == Handled(Ok(Plain(Cancelled)), None)
      ensures h.execution.Some? <==> mcpServer != null && confirmed
      ensures h.execution.Some? ==>
        var e := mcpServer.ExecuteTool(toolName, userId, args, true, answers, fmt);
        h.execution == Some(e) &&
        (e.err.Some? ==> h.outcome == Err(ExecuteErrorPrefix + e.err.value)) &&
        (e.err.None? && !e.result.success ==> h.outcome == Ok(Plain(OperationFailedPrefix + e.result.message))) &&
        (e.err.None? && e.result.success ==>
           h.outcome == Ok(ChatResponse(e.result.message, Intents.IntentUnknown, ToolData(e.result.data), false, None)))
      ensures h.outcome.Ok? ==> !h.outcome.value.requiresConfirmation && h.outcome.value.confirmationData.None?
    {
      if mcpServer == null then Handled(Err(ServerMissing), None)
      else if !confirmed then Handled(Ok(Plain(Cancelled)), None)
      else
        var e := mcpServer.ExecuteTool(toolName, userId, args, true, answers, fmt);
        if e.err.Some? then Handled(Err(ExecuteErrorPrefix + e.err.value), Some(e))
        else if !e.result.success then Handled(Ok(Plain(OperationFailedPrefix + e.result.message)), Some(e))
        else Handled(Ok(ChatResponse(e.result.message, Intents.IntentUnknown, ToolData(e.result.data), false, None)), Some(e))
    }
  }

  /**
   * While the registry is guarded, a chat message never reaches a money
   * service, whatever the user writes and the model answers.
   */
  lemma MessageNeverMovesMoney(s: Service, userId: string, message: string, first: HttpAnswer, second: HttpAnswer,
                               answers: Answers, fmt: Fmt, decodeArgs: string -> Option<Args>)
    requires s.mcpServer != null && Guarded(s.mcpServer.tools)
    requires s.aiClient != null ==> s.aiClient.mcpServer == s.mcpServer
    ensures var h := s.ProcessMessage(userId, message, first, second, answers, fmt, decodeArgs);
      h.execution.Some? && h.execution.value.call.Some? ==> !IsMoneyCall(h.execution.value.call.value)
  {
    if s.aiClient != null {
      ChatTurnNeverMovesMoney(s.aiClient, userId, message, first, second, answers, fmt, decodeArgs);
    }
  }

  /**
   * Confirming what a chat turn asked to confirm, with the tool name and
   * arguments it handed back, runs that tool's handler: the request is
   * never a dead end.
   */
  lemma ConfirmingRunsTheRequestedTool(s: Service, userId: string, message: string, first: HttpAnswer, second: HttpAnswer,
                                       answers: Answers, fmt: Fmt, decodeArgs: string -> Option<Args>)
    requires s.Wired()
    requires var h := s.ProcessMessage(userId, message, first, second, answers, fmt, decodeArgs);
      h.outcome.Ok? && h.outcome.value.requiresConfirmation
    ensures var d := s.ProcessMessage(userId, message, first, second, answers, fmt, decodeArgs).outcome.value.confirmationData.value;
      var c := s.ProcessConfirmation(userId, d.toolName, d.arguments, true, answers, fmt);
      d.toolName in s.mcpServer.tools && s.mcpServer.tools[d.toolName].handler.Some? &&
      c.execution.Some? && c.execution.value.ran == s.mcpServer.tools[d.toolName].handler
  {
    var t := s.aiClient.ProcessMessage(userId, message, first, second, answers, fmt, decodeArgs);
    var response := CallOpenRouter(first).value;
    var (name, args) := ParseToolCall(response, decodeArgs).value;
    var e := s.mcpServer.ExecuteTool(name, userId, args, false, answers, fmt);
    assert e.err.None? && e.result.requiresConfirmation;
  }

  // ---------------------------------------------------------------------
  // The reply to a request that was not understood
  // ---------------------------------------------------------------------

  const SuggestionList: seq<string> := [
    "What's my balance?",
    "Deposit $100",
    "Withdraw $50",
    "Transfer $200 to account 12345",
    "Show my last 10 transactions"
  ]

  const NotUnderstood := "I didn't understand that request. Here are some things you can ask me:"
  const AskMe := "\n\nHere are some things you can ask me:"

  /** A bullet per item, each quoted, one per line. */
  function Bullets(items: seq<string>): string {
    if items == [] then ""
    else if |items| == 1 then "- \"" + items[0] + "\""
    else "- \"" + items[0] + "\"\n" + Bullets(items[1..])
  }

  /** `w` occurs in `s` at position `p`. */
  predicate MentionsAt(s: string, w: string, p: nat) {
    p + |w| <= |s| && s[p..p + |w|] == w
  }

  ghost predicate Mentions(s: string, w: string) {
    exists p: nat :: MentionsAt(s, w, p)
  }

  /** An occurrence in `b` is an occurrence in `a + b`, shifted by `|a|`. */
  lemma MentionsAfter(a: string, b: string, w: string, p: nat)
    requires MentionsAt(b, w, p)
    ensures MentionsAt(a + b, w, |a| + p)
  {
    assert (a + b)[|a| + p..|a| + p + |w|] == b[p..p + |w|];
  }

  /** Every item appears in the bullet list, quoted after a dash. */
  lemma {:induction false} BulletsMentionEach(items: seq<string>, i: nat)
    requires i < |items|
    ensures Mentions(Bullets(items), "- \"" + items[i] + "\"")
    decreases |items|
  {
    var w := "- \"" + items[i] + "\"";
    var b := Bullets(items);
    if i == 0 {
      if |items| > 1 {
        assert b == w + ("\n" + Bullets(items[1..]));
      }
      assert b[0..|w|] == w;
      assert MentionsAt(b, w, 0);
    } else {
      BulletsMentionEach(items[1..], i - 1);
      assert items[1..][i - 1] == items[i];
      var head := "- \"" + items[0] + "\"\n";
      var rest := Bullets(items[1..]);
      var p: nat :| MentionsAt(rest, w, p);
      MentionsAfter(head, rest, w, p);
      assert b == head + rest;
    }
  }

  /**
   * `buildUnknownResponse`: the custom message, or a default, then the
   * suggestions as a bullet list, with the same suggestions as data.
   */
  function BuildUnknownResponse(customMessage: string): (r: ChatResponse)
    ensures r.intent == Intents.IntentUnknown && !r.requiresConfirmation && r.confirmationData.None?
    ensures r.data == Suggestions(SuggestionList)
    ensures customMessage == "" ==> HasPrefix(r.reply, NotUnderstood)
    ensures customMessage != "" ==> HasPrefix(r.reply, customMessage + AskMe)
    ensures forall i :: 0 <= i < |SuggestionList| ==> Mentions(r.reply, "- \"" + SuggestionList[i] + "\"")
  {
    var head := (if customMessage == "" then NotUnderstood else customMessage + AskMe) + "\n\n";
    ListingMentionsEach(head, SuggestionList);
    ChatResponse(head + Bullets(SuggestionList), Intents.IntentUnknown, Suggestions(SuggestionList), false, None)
  }

  /** Text followed by a bullet list mentions every item of the list. */
  lemma ListingMentionsEach(head: string, items: seq<string>)
    ensures forall i :: 0 <= i < |items| ==> Mentions(head + Bullets(items), "- \"" + items[i] + "\"")
  {
    var b := Bullets(items);
    forall i | 0 <= i < |items|
      ensures Mentions(head + b, "- \"" + items[i] + "\"")
    {
      var w := "- \"" + items[i] + "\"";
      BulletsMentionEach(items, i);
      var p: nat :| MentionsAt(b, w, p);
      MentionsAfter(head, b, w, p);
    }
  }
}
