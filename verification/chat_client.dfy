/**
 * The conversational client between the user and the language model: the
 * input guards, the sanitised errors of the completion call, reading the
 * model's tool call, the gate every chat turn goes through, and the
 * fallbacks when the second completion does not give a usable reply.
 *
 * The completion endpoint is an input: each call's answer is given, either
 * a transport failure or a status with the decoded body. Decoding a tool
 * call's JSON arguments (RFC 8259) is an input too.
 */
module ChatClient {
  import opened Wrappers
  import opened Text
  import opened Tools
  import Numbers

  datatype ToolCall = ToolCall(id: string, name: string, arguments: string)
  datatype Message = Message(content: string, toolCalls: seq<ToolCall>)
  datatype Choice = Choice(message: Message)
  datatype Completion = Completion(choices: seq<Choice>)

  /**
   * What one call to the completion endpoint comes back with: a failure
   * before any status (marshalling, the request, the transport, reading
   * the body), or a status and the result of decoding the body.
   */
  datatype HttpAnswer = TransportFailure(err: string) | Answered(status: int, body: Result<Completion, string>)

  /** What a chat turn hands back to the chat service. */
  datatype ProcessResult = ProcessResult(
    reply: string,
    requiresConfirmation: bool,
    toolName: string,
    arguments: Args,
    data: Data)

  /** A turn's outcome, how many completion calls it made, and what the tool gate did, if it was reached. */
  datatype Turn = Turn(outcome: Result<ProcessResult, string>, apiCalls: nat, execution: Option<Execution>)

  const MaxMessageBytes: nat := 2000

  const NoToolReply := "I'm not sure how to help with that. Could you rephrase your question?"
  const BusyError := "AI service temporarily busy, please try again in a moment"
  const AuthError := "AI service authentication error"
  const BadRequestError := "invalid request format"
  const UnavailableError := "AI service temporarily unavailable"
  const StatusErrorPrefix := "AI service error (status "
  const UnmarshalPrefix := "failed to unmarshal response: "
  const ToolErrorPrefix := "I encountered an error: "
  const NoChoices := "no choices in AI response"
  const ExecutionErrorPrefix := "I encountered an error while processing your request: "
  const EmptyUserId := "userID cannot be empty"
  const EmptyMessage := "message cannot be empty"
  const MessageTooLong := "message too long (maximum 2000 characters)"
  const CallErrorPrefix := "failed to call OpenRouter API: "

  /** The number of bytes a code point takes in UTF-8. */
  function RuneLength(c: char): (n: nat)
    ensures 1 <= n <= 4
    ensures c as int < 0x80 <==> n == 1
  {
    if c as int < 0x80 then 1
    else if c as int < 0x800 then 2
    else if c as int < 0x1_0000 then 3
    else 4
  }

  /** `len` of a Go string: its length in UTF-8 bytes. */
  function Utf8Length(s: string): (n: nat)
    ensures |s| <= n <= 4 * |s|
  {
    if s == [] then 0 else Utf8Length(s[..|s| - 1]) + RuneLength(s[|s| - 1])
  }

  /** Text that is all ASCII has as many bytes as characters. */
  lemma {:induction false} AsciiLength(s: string)
    requires forall i :: 0 <= i < |s| ==> s[i] as int < 0x80
    ensures Utf8Length(s) == |s|
  {
    if s != [] {
      AsciiLength(s[..|s| - 1]);
    }
  }

  /**
   * The error a non-200 status becomes: fixed texts for 429, 401 and 403,
   * 400, 503 and 504 (RFC 9110 section 15, RFC 6585 section 4), and a
   * generic text naming the status otherwise; the body is never shown.
   */
  function StatusError(status: int): (m: string)
    ensures status == 429 ==> m == BusyError
    ensures status == 401 || status == 403 ==> m == AuthError
    ensures status == 400 ==> m == BadRequestError
    ensures status == 503 || status == 504 ==> m == UnavailableError
    ensures status !in {429, 401, 403, 400, 503, 504} ==> m == StatusErrorPrefix + IntToString(status) + ")"
  {
    if status == 429 then BusyError
    else if status == 401 || status == 403 then AuthError
    else if status == 400 then BadRequestError
    else if status == 503 || status == 504 then UnavailableError
    else StatusErrorPrefix + IntToString(status) + ")"
  }

  /** Different statuses outside the named ones give different texts. */
  lemma StatusErrorNamesStatus(a: int, b: int)
    requires a !in {429, 401, 403, 400, 503, 504} && b !in {429, 401, 403, 400, 503, 504}
    requires Numbers.MinInt64 <= a <= Numbers.MaxInt64 && Numbers.MinInt64 <= b <= Numbers.MaxInt64
    requires StatusError(a) == StatusError(b)
    ensures a == b
  {
    var p := StatusErrorPrefix;
    var x, y := StatusError(a), StatusError(b);
    assert x == p + IntToString(a) + ")" && y == p + IntToString(b) + ")";
    assert x[|p|..|x| - 1] == IntToString(a);
    assert y[|p|..|y| - 1] == IntToString(b);
    Numbers.AtoiRoundTrip(a);
    Numbers.AtoiRoundTrip(b);
  }

  /** `callOpenRouter`: a response only for status 200 with a body that decodes. */
  function CallOpenRouter(answer: HttpAnswer): (r: Result<Completion, string>)
    ensures r.Ok? <==> answer.Answered? && answer.status == 200 && answer.body.Ok?
    ensures r.Ok? ==> r.value == answer.body.value
    ensures answer.Answered? && answer.status != 200 ==> r == Err(StatusError(answer.status))
    ensures answer.TransportFailure? ==> r == Err(answer.err)
  {
    match answer
    case TransportFailure(e) => Err(e)
    case Answered(status, body) =>
      if status != 200 then Err(StatusError(status))
      else
        match body
        case Err(e) => Err(UnmarshalPrefix + e)
        case Ok(c) => Ok(c)
  }

  /**
   * `parseToolCall`: the first tool call of the first choice. Arguments
   * that trim to nothing or to "{}" are an empty map; arguments that do not
   * decode count as no call at all.
   */
  function ParseToolCall(response: Completion, decodeArgs: string -> Option<Args>): (r: Option<(string, Args)>)
    ensures response.choices == [] ==> r.None?
    ensures response.choices != [] && response.choices[0].message.toolCalls == [] ==> r.None?
    ensures r.Some? ==>
      response.choices != [] && response.choices[0].message.toolCalls != [] &&
      var call := response.choices[0].message.toolCalls[0];
      r.value.0 == call.name &&
      (TrimSpace(call.arguments) in {"", "{}"} ==> r.value.1 == map[]) &&
      (TrimSpace(call.arguments) !in {"", "{}"} ==> Some(r.value.1) == decodeArgs(call.arguments))
    ensures response.choices != [] && response.choices[0].message.toolCalls != [] ==>
      var call := response.choices[0].message.toolCalls[0];
      (r.None? <==> TrimSpace(call.arguments) !in {"", "{}"} && decodeArgs(call.arguments).None?)
  {
    if response.choices == [] then None
    else
      var message := response.choices[0].message;
      if message.toolCalls == [] then None
      else
        var call := message.toolCalls[0];
        var trimmed := TrimSpace(call.arguments);
        if trimmed == "" || trimmed == "{}" then Some((call.name, map[]))
        else
          match decodeArgs(call.arguments)
          case None => None
          case Some(args) => Some((call.name, args))
  }

  /** `formatToolResponse`: the tool's message, prefixed when the tool failed. */
  function FormatToolResponse(result: ToolResult): (reply: string)
    ensures result.success ==> reply == result.message
    ensures !result.success ==> reply == ToolErrorPrefix + result.message
  {
    if !result.success then ToolErrorPrefix + result.message else result.message
  }

  /**
   * `handleToolResultWithAI` after the tool ran: the second completion's
   * text is the reply, and when that call fails, has no choices or has no
   * text, the tool's own message is. The tool's data is passed on either way.
   */
  function ReplyAfterTool(result: ToolResult, second: HttpAnswer): (r: ProcessResult)
    ensures r.data == result.data && !r.requiresConfirmation
    ensures var c := CallOpenRouter(second);
      (c.Err? || c.value.choices == [] || c.value.choices[0].message.content == "") ==> r.reply == FormatToolResponse(result)
    ensures var c := CallOpenRouter(second);
      c.Ok? && c.value.choices != [] && c.value.choices[0].message.content != "" ==>
      r.reply == c.value.choices[0].message.content
  {
    match CallOpenRouter(second)
    case Err(_) => ProcessResult(FormatToolResponse(result), false, "", map[], result.data)
    case Ok(response) =>
      if response.choices == [] then ProcessResult(FormatToolResponse(result), false, "", map[], result.data)
      else
        var aiReply := response.choices[0].message.content;
        var reply := if aiReply == "" then FormatToolResponse(result) else aiReply;
        ProcessResult(reply, false, "", map[], result.data)
  }

  class AIClient {
    const mcpServer: MCPServer

    constructor (mcpServer: MCPServer)
      ensures this.mcpServer == mcpServer
    {
      this.mcpServer := mcpServer;
    }

    /**
     * `handleAIResponse`: no choices is an error; no tool call gives the
     * model's text (or a default); a tool call goes through the gate with
     * `confirmed` false. A gate error becomes a reply, a confirmation
     * request is handed back with the tool and its arguments, and an
     * executed tool's result is phrased by a second completion.
     */
    function HandleAIResponse(userId: string, response: Completion, second: HttpAnswer,
                              answers: Answers, fmt: Fmt, decodeArgs: string -> Option<Args>): (t: Turn)
      reads mcpServer
      ensures response.choices == [] ==> t == Turn(Err(NoChoices), 0, None)
      ensures response.choices != [] && ParseToolCall(response, decodeArgs).None? ==>
        var text := response.choices[0].message.content;
        t == Turn(Ok(ProcessResult(if text == "" then NoToolReply else text, false, "", map[], NoData)), 0, None)
      ensures response.choices != [] && ParseToolCall(response, decodeArgs).Some? ==>
        var (name, args) := ParseToolCall(response, decodeArgs).value;
        var e := mcpServer.ExecuteTool(name, userId, args, false, answers, fmt);
        t.execution == Some(e) && t.outcome.Ok? &&
        (e.err.Some? ==>
           t.outcome.value == ProcessResult(ExecutionErrorPrefix + e.err.value,
                                            false, "", map[], NoData) && t.apiCalls == 0) &&
        (e.err.None? && e.result.requiresConfirmation ==>
           t.outcome.value == ProcessResult(e.result.confirmationMessage, true, name, args, NoData) && t.apiCalls == 0) &&
        (e.err.None? && !e.result.requiresConfirmation ==>
           t.outcome.value == ReplyAfterTool(e.result, second) && t.apiCalls == 1)
    {
      if response.choices == [] then Turn(Err(NoChoices), 0, None)
      else
        match ParseToolCall(response, decodeArgs)
        case None =>
          var text := response.choices[0].message.content;
          Turn(Ok(ProcessResult(if text == "" then NoToolReply else text, false, "", map[], NoData)), 0, None)
        case Some((name, args)) =>
          var e := mcpServer.ExecuteTool(name, userId, args, false, answers, fmt);
          if e.err.Some? then
            Turn(Ok(ProcessResult(ExecutionErrorPrefix + e.err.value,
                                  false, "", map[], NoData)), 0, Some(e))
          else if e.result.requiresConfirmation then
            Turn(Ok(ProcessResult(e.result.confirmationMessage, true, name, args, NoData)), 0, Some(e))
          else
            Turn(Ok(ReplyAfterTool(e.result, second)), 1, Some(e))
    }

    /**
     * `ProcessMessage`: an empty user ID, a message that is empty after
     * trimming, or one longer than 2000 bytes is refused before any
     * completion call; a failed first call is an error; otherwise the
     * response is handled as above.
     */
    function ProcessMessage(userId: string, message: string, first: HttpAnswer, second: HttpAnswer,
                            answers: Answers, fmt: Fmt, decodeArgs: string -> Option<Args>): (t: Turn)
      reads mcpServer
      ensures userId == "" ==> t == Turn(Err(EmptyUserId), 0, None)
      ensures userId != "" && TrimSpace(message) == "" ==> t == Turn(Err(EmptyMessage), 0, None)
      ensures userId != "" && TrimSpace(message) != "" && Utf8Length(TrimSpace(message)) > MaxMessageBytes ==>
        t == Turn(Err(MessageTooLong), 0, None)
      ensures t.apiCalls > 0 <==> userId != "" && TrimSpace(message) != "" && Utf8Length(TrimSpace(message)) <= MaxMessageBytes
      ensures t.apiCalls > 0 && CallOpenRouter(first).Err? ==>
        t == Turn(Err(CallErrorPrefix + CallOpenRouter(first).error), 1, None)
      ensures t.apiCalls > 0 && CallOpenRouter(first).Ok? ==>
        var h := HandleAIResponse(userId, CallOpenRouter(first).value, second, answers, fmt, decodeArgs);
        t == h.(apiCalls := h.apiCalls + 1)
    {
      if userId == "" then Turn(Err(EmptyUserId), 0, None)
      else
        var trimmed := TrimSpace(message);
        if trimmed == "" then Turn(Err(EmptyMessage), 0, None)
        else if Utf8Length(trimmed) > MaxMessageBytes then Turn(Err(MessageTooLong), 0, None)
        else
          match CallOpenRouter(first)
          case Err(e) => Turn(Err(CallErrorPrefix + e), 1, None)
          case Ok(response) =>
            var h := HandleAIResponse(userId, response, second, answers, fmt, decodeArgs);
            h.(apiCalls := h.apiCalls + 1)
    }
  }

  /**
   * While the registry is guarded, no chat turn reaches a money service,
   * whatever the user writes and the model answers: money moves only
   * through an explicit confirmation.
   */
  lemma ChatTurnNeverMovesMoney(c: AIClient, userId: string, message: string, first: HttpAnswer, second: HttpAnswer,
                                answers: Answers, fmt: Fmt, decodeArgs: string -> Option<Args>)
    requires Guarded(c.mcpServer.tools)
    ensures var t := c.ProcessMessage(userId, message, first, second, answers, fmt, decodeArgs);
      t.execution.Some? && t.execution.value.call.Some? ==> !IsMoneyCall(t.execution.value.call.value)
  {
    var t := c.ProcessMessage(userId, message, first, second, answers, fmt, decodeArgs);
    if t.execution.Some? {
      var response := CallOpenRouter(first).value;
      var (name, args) := ParseToolCall(response, decodeArgs).value;
      UnconfirmedNeverMovesMoney(c.mcpServer, name, userId, args, answers, fmt);
    }
  }
}
