/** The Gemini client built on an MCP SDK session: it launches one server script, keeps
    the session, lists the session's tools into a system prompt, and folds at most one
    `TOOL_CALL:` request from the model's answer into a second prompt. The SDK session,
    the process launch and the model are parameters. */
module SessionClient {
  import opened Common
  import opened JsonValues
  import Q = QueueClient

  // ---------------------------------------------------------------------------
  // Launching and initialising the server

  /** StdioServerParameters: the program and its arguments. */
  datatype ServerParams = ServerParams(command: string, args: seq<string>)

  /** The launcher for a server script: `python` for a `.py` path, `node` for any other
      path, which is never refused. */
  function Launcher(path: string): (r: ServerParams)
    ensures r.args == [path]
    ensures r.command == "python" <==> EndsWith(path, ".py")
    ensures r.command != "python" ==> r.command == "node"
  {
    ServerParams(if EndsWith(path, ".py") then "python" else "node", [path])
  }

  /** What session.initialize() does: return a result, return None, raise one of the
      exceptions connect_to_server catches (OSError, ConnectionError, a timeout,
      McpError), or raise something else. */
  datatype InitOutcome = Initialized(serverInfo: Json) | NoResult | ConnectFailed(error: Exn)
                       | InitRaised(error: Exn)

  /** Entering the stdio transport and the session either raises, before any try
      block, or opens the session, which is then initialised. */
  datatype Opening = SpawnRaised(error: Exn) | Opened(init: InitOutcome)

  type Opener = ServerParams -> Opening

  /** What connect_to_server returns (Err when an exception escapes it). */
  function Connected(opening: Opening): Result<bool, Exn>
  {
    match opening
    case SpawnRaised(e) => Err(e)
    case Opened(Initialized(_)) => Ok(true)
    case Opened(NoResult) => Ok(false)
    case Opened(ConnectFailed(_)) => Ok(false)
    case Opened(InitRaised(e)) => Err(e)
  }

  /** connect_to_server reports success exactly when initialisation returns a result, and
      raises exactly when launching or an uncaught initialisation error does. */
  lemma ConnectedCases(opening: Opening)
    ensures Connected(opening) == Ok(true) <==> opening.Opened? && opening.init.Initialized?
    ensures Connected(opening).Err?
            <==> opening.SpawnRaised? || (opening.Opened? && opening.init.InitRaised?)
  {
  }

  // ---------------------------------------------------------------------------
  // The session's tools and tool calls

  datatype SdkTool = SdkTool(name: string, description: Json, inputSchema: Json)

  /** A content item of a tool result: text, or another kind (image, resource) that has
      no `text` attribute. */
  datatype Content = TextContent(text: string) | OtherContent(kind: string)

  datatype ToolResult = ToolResult(content: seq<Content>)

  /** The session's list_tools and call_tool, as the connected server answers them. */
  datatype Sdk = Sdk(listTools: ServerParams -> Result<seq<SdkTool>, Exn>,
                     callTool: (ServerParams, Json, Json) -> Result<ToolResult, Exn>)

  /** The model: the `.text` of its answer to a prompt (None when it has none), or the
      exception sending the prompt raised. */
  type Model = string -> Result<Option<string>, Exn>

  /** get_available_tools */
  function Listed(session: Option<ServerParams>, sdk: Sdk): Result<seq<SdkTool>, Exn>
  {
    if session.None? then Ok([]) else sdk.listTools(session.value)
  }

  /** call_tool: None without a session. */
  function Called(session: Option<ServerParams>, sdk: Sdk, toolName: Json, arguments: Json)
    : Result<Option<ToolResult>, Exn>
  {
    if session.None? then Ok(None)
    else match sdk.callTool(session.value, toolName, arguments)
      case Err(e) => Err(e)
      case Ok(result) => Ok(Some(result))
  }

  // ---------------------------------------------------------------------------
  // The prompts

  /** One line of the tool list in the system prompt. */
  function Describe(tool: SdkTool, rt: Runtime): string
  {
    "- " + tool.name + " (스키마: " + Str(rt, tool.inputSchema) + "): " + Str(rt, tool.description)
  }

  function DescribeAll(tools: seq<SdkTool>, rt: Runtime): (lines: seq<string>)
    ensures |lines| == |tools|
    ensures forall k :: 0 <= k < |tools| ==> lines[k] == Describe(tools[k], rt)
  {
    seq(|tools|, k requires 0 <= k < |tools| => Describe(tools[k], rt))
  }

  const SystemTail := "\n\n사용자의 요청을 처리하기 위해 적절한 도구가 필요하다면, 다음 형식으로 도구 호출을 요청하세요:\n\nTOOL_CALL: {\n  \"tool\": \"도구명\",\n  \"arguments\": {인수 딕셔너리}\n}\n\n도구 호출 결과를 받은 후 최종 답변을 제공하세요.\n"
  const ResultLabel := "\n\n도구 호출 결과:\n도구: "
  const FinalTail := "\n \n위 결과를 바탕으로 사용자에게 최종 답변을 제공하세요.\n"
  const CallFailedText := "도구 호출에 실패했습니다."
  const NoFinalText := "최종 응답이 없습니다."

  function SystemPrompt(toolsDescription: string): string
  {
    Q.SystemHead + toolsDescription + SystemTail
  }

  function FinalPrompt(system: string, message: string, toolName: string, toolAnswer: string)
    : string
  {
    "\n" + system + Q.UserLabel + message + ResultLabel + toolName + Q.AnswerLabel + toolAnswer
    + FinalTail
  }

  // ---------------------------------------------------------------------------
  // Slicing the tool call out of the model's text

  /** The text from just after the marker up to the last '}' of the whole text,
      inclusive; empty when there is no '}' after the marker (the slice then ends before
      it starts). */
  function CallText(text: string): string
    requires Contains(text, Q.Marker)
  {
    CallTextFrom(text, IndexOf(text, Q.Marker, 0))
  }

  /** The call text for a marker found at `start`. */
  function CallTextFrom(text: string, start: int): string
  {
    if start < 0 then [] else Slice(text, start + 10, LastIndexOf(text, '}') + 1)
  }

  /** What chat hands to json.loads: the call text, stripped, with every literal
      backslash-n removed. */
  function CallJson(text: string): string
    requires Contains(text, Q.Marker)
  {
    RemoveAll(Strip(CallText(text)), "\\n")
  }

  /** The call text ends at the last '}' in the whole text, wherever later prose puts
      it, and is empty when no '}' follows the marker. */
  lemma CallTextSpan(text: string)
    requires Contains(text, Q.Marker)
    ensures var start := IndexOf(text, Q.Marker, 0);
      var last := LastIndexOf(text, '}');
      && (last < start + 10 ==> CallText(text) == [])
      && (last >= start + 10 ==> CallText(text) == text[start + 10..last + 1]
                                 && text[last] == '}'
                                 && forall k :: last < k < |text| ==> text[k] != '}')
  {
    MarkerFits(text);
    CallTextFromSpan(text, IndexOf(text, Q.Marker, 0));
  }

  /** The call text for a marker at `start` that fits in the text. */
  lemma CallTextFromSpan(text: string, start: nat)
    requires start + 10 <= |text|
    ensures var last := LastIndexOf(text, '}');
      && (last < start + 10 ==> CallTextFrom(text, start) == [])
      && (last >= start + 10 ==> CallTextFrom(text, start) == text[start + 10..last + 1]
                                 && text[last] == '}'
                                 && forall k :: last < k < |text| ==> text[k] != '}')
  {
  }

  lemma MarkerFits(text: string)
    requires Contains(text, Q.Marker)
    ensures IndexOf(text, Q.Marker, 0) + 10 <= |text|
  {
    assert |Q.Marker| == 10;
  }

  /** Python's replace does not remove backslash-n sequences that its own removals
      create: `\\nn` keeps one. */
  lemma RemovalLeavesBackslashN()
    ensures RemoveAll("\\\\nn", "\\n") == "\\n"
  {
    var s := "\\\\nn";
    assert s[..2][1] != "\\n"[1];
    assert s[1..][..2] == "\\n";
    assert s[1..][2..] == "n";
    assert RemoveAll("n", "\\n") == "n";
  }

  // ---------------------------------------------------------------------------
  // chat

  /** The text chat returns for an exception its try block catches. */
  function Failure(rt: Runtime, e: Exn): string
  {
    Q.ChatErrorPrefix + ExnText(rt, e)
  }

  /** tool_result.content[0].text */
  function FirstText(result: ToolResult): Result<string, Exn>
  {
    if |result.content| == 0 then Err(IndexError)
    else match result.content[0]
      case TextContent(text) => Ok(text)
      case OtherContent(kind) => Err(NoAttribute(kind, "text"))
  }

  /** What chat returns once the tool has answered. */
  function Answered(system: string, message: string, toolName: Json, result: ToolResult,
                    model: Model, rt: Runtime): string
  {
    match FirstText(result)
    case Err(e) => Failure(rt, e)
    case Ok(answer) =>
      match model(FinalPrompt(system, message, Str(rt, toolName), answer))
      case Err(e) => Failure(rt, e)
      case Ok(None) => NoFinalText
      case Ok(Some(final)) => if final == "" then NoFinalText else final
  }

  /** What chat returns for a decoded tool call. */
  function FollowUp(session: Option<ServerParams>, sdk: Sdk, system: string, message: string,
                    call: Json, model: Model, rt: Runtime): string
  {
    match Field(call, "tool")
    case Err(e) => Failure(rt, e)
    case Ok(toolName) =>
      match Field(call, "arguments")
      case Err(e) => Failure(rt, e)
      case Ok(arguments) =>
        match Called(session, sdk, toolName, arguments)
        case Err(e) => Failure(rt, e)
        case Ok(None) => CallFailedText
        case Ok(Some(result)) => Answered(system, message, toolName, result, model, rt)
  }

  /** chat, once the system prompt is built: its try block. */
  function Converse(session: Option<ServerParams>, sdk: Sdk, system: string, message: string,
                    model: Model, decode: string -> Option<Json>, rt: Runtime): string
  {
    match model(Q.FullPrompt(system, message))
    case Err(e) => Failure(rt, e)
    case Ok(None) => Q.NoReplyText
    case Ok(Some(text)) =>
      if !Contains(text, Q.Marker) then text
      else match decode(CallJson(text))
        case None => text
        case Some(call) => FollowUp(session, sdk, system, message, call, model, rt)
  }

  /** chat(message): listing the tools happens outside the try block, so its exception
      escapes. */
  function ChatOutcome(session: Option<ServerParams>, sdk: Sdk, message: string, model: Model,
                       decode: string -> Option<Json>, rt: Runtime): Result<string, Exn>
  {
    match Listed(session, sdk)
    case Err(e) => Err(e)
    case Ok(tools) =>
      Ok(Converse(session, sdk, SystemPrompt(Join("\n", DescribeAll(tools, rt))), message,
                  model, decode, rt))
  }

  /** A model answer without text gives the no-reply text. */
  lemma NoTextFallback(session: Option<ServerParams>, sdk: Sdk, system: string, message: string,
                       model: Model, decode: string -> Option<Json>, rt: Runtime)
    requires model(Q.FullPrompt(system, message)) == Ok(None)
    ensures Converse(session, sdk, system, message, model, decode, rt) == Q.NoReplyText
  {
  }

  /** Without the marker, or with a call that does not decode, the model's first text
      is returned as it is. */
  lemma TextUnchanged(session: Option<ServerParams>, sdk: Sdk, system: string, message: string,
                      model: Model, decode: string -> Option<Json>, rt: Runtime, text: string)
    requires model(Q.FullPrompt(system, message)) == Ok(Some(text))
    requires !Contains(text, Q.Marker) || decode(CallJson(text)).None?
    ensures Converse(session, sdk, system, message, model, decode, rt) == text
  {
  }

  /** A marker with no '}' after it leaves nothing to decode, and json.loads rejects
      the empty string: the model's text is returned. */
  lemma NoBraceUnchanged(session: Option<ServerParams>, sdk: Sdk, system: string,
                         message: string, model: Model, decode: string -> Option<Json>,
                         rt: Runtime, text: string)
    requires decode([]).None?
    requires model(Q.FullPrompt(system, message)) == Ok(Some(text))
    requires Contains(text, Q.Marker) && LastIndexOf(text, '}') < IndexOf(text, Q.Marker, 0) + 10
    ensures Converse(session, sdk, system, message, model, decode, rt) == text
  {
    CallTextSpan(text);
    assert Strip([]) == [];
    assert RemoveAll([], "\\n") == [];
  }

  /** Without a session the tool list is empty, so the system prompt lists no tools,
      and any decoded call fails with the call-failed text. */
  lemma NoSession(sdk: Sdk, message: string, model: Model, decode: string -> Option<Json>,
                  rt: Runtime, text: string, toolName: Json, arguments: Json)
    requires model(Q.FullPrompt(SystemPrompt(""), message)) == Ok(Some(text))
    requires Contains(text, Q.Marker)
    requires decode(CallJson(text)) == Some(JObj(map["tool" := toolName, "arguments" := arguments]))
    ensures Listed(None, sdk) == Ok([])
    ensures ChatOutcome(None, sdk, message, model, decode, rt) == Ok(CallFailedText)
  {
    assert Join("\n", DescribeAll([], rt)) == "";
    var call := JObj(map["tool" := toolName, "arguments" := arguments]);
    assert Field(call, "tool") == Ok(toolName);
    assert Field(call, "arguments") == Ok(arguments);
  }

  /** With a session, a decoded call goes to the session's call_tool with the call's
      tool and arguments, and the answer is the model's reply to the final prompt, or
      the fallback text when that reply is empty or missing. */
  lemma ToolCallFolded(session: ServerParams, sdk: Sdk, system: string, message: string,
                       model: Model, decode: string -> Option<Json>, rt: Runtime, text: string,
                       toolName: Json, arguments: Json, answer: string)
    requires model(Q.FullPrompt(system, message)) == Ok(Some(text))
    requires Contains(text, Q.Marker)
    requires decode(CallJson(text)) == Some(JObj(map["tool" := toolName, "arguments" := arguments]))
    requires sdk.callTool(session, toolName, arguments).Ok?
    requires FirstText(sdk.callTool(session, toolName, arguments).value) == Ok(answer)
    ensures var final := model(FinalPrompt(system, message, Str(rt, toolName), answer));
      var reply := Converse(Some(session), sdk, system, message, model, decode, rt);
      && (final.Err? ==> reply == Failure(rt, final.error))
      && (final.Ok? && (final.value.None? || final.value.value == "") ==> reply == NoFinalText)
      && (final.Ok? && final.value.Some? && final.value.value != "" ==> reply == final.value.value)
  {
    var call := JObj(map["tool" := toolName, "arguments" := arguments]);
    assert Field(call, "tool") == Ok(toolName);
    assert Field(call, "arguments") == Ok(arguments);
  }

  /** Only the first content item of the tool's result matters. */
  lemma OnlyFirstContent(system: string, message: string, toolName: Json, r1: ToolResult,
                         r2: ToolResult, model: Model, rt: Runtime)
    requires |r1.content| > 0 && |r2.content| > 0 && r1.content[0] == r2.content[0]
    ensures Answered(system, message, toolName, r1, model, rt)
            == Answered(system, message, toolName, r2, model, rt)
  {
  }

  /** A tool result without content, or whose first item has no text, ends chat with
      the caught exception's text and no second model call. */
  lemma NoFirstText(system: string, message: string, toolName: Json, result: ToolResult,
                    model: Model, rt: Runtime)
    requires |result.content| == 0 || result.content[0].OtherContent?
    ensures var e := if |result.content| == 0 then IndexError
                     else NoAttribute(result.content[0].kind, "text");
      Answered(system, message, toolName, result, model, rt) == Failure(rt, e)
  {
  }

  // ---------------------------------------------------------------------------
  // The client object

  class GeminiMCPClient {
    /** self.session */
    var session: Option<ServerParams>
    /** The transports and sessions the exit stack has entered, oldest first. */
    var entered: seq<ServerParams>

    constructor ()
      ensures session.None? && entered == []
    {
      session := None;
      entered := [];
    }

    /** connect_to_server: the session is stored as soon as it is opened, before it is
        initialised, so a failed initialisation leaves it in place. */
    method ConnectToServer(path: string, open: Opener) returns (r: Result<bool, Exn>)
      modifies this
      ensures r == Connected(open(Launcher(path)))
      ensures open(Launcher(path)).SpawnRaised? ==>
                session == old(session) && entered == old(entered)
      ensures open(Launcher(path)).Opened? ==>
                session == Some(Launcher(path)) && entered == old(entered) + [Launcher(path)]
    {
      var params := Launcher(path);
      match open(params)
      case SpawnRaised(e) =>
        r := Err(e);
      case Opened(init) =>
        entered := entered + [params];
        session := Some(params);
        r := Connected(Opened(init));
    }

    /** call_tool: None without a session, otherwise the session's own answer. */
    method CallTool(toolName: Json, arguments: Json, sdk: Sdk)
      returns (r: Result<Option<ToolResult>, Exn>)
      ensures r == Called(session, sdk, toolName, arguments)
      ensures session.None? ==> r == Ok(None)
      ensures session.Some? ==> (r.Ok? <==> sdk.callTool(session.value, toolName, arguments).Ok?)
      ensures r.Ok? && session.Some? ==>
                r.value == Some(sdk.callTool(session.value, toolName, arguments).value)
    {
      if session.None? {
        return Ok(None);
      }
      var answer := sdk.callTool(session.value, toolName, arguments);
      match answer
      case Err(e) => r := Err(e);
      case Ok(result) => r := Ok(Some(result));
    }

    /** get_available_tools: [] without a session. */
    method GetAvailableTools(sdk: Sdk) returns (r: Result<seq<SdkTool>, Exn>)
      ensures r == Listed(session, sdk)
      ensures session.None? ==> r == Ok([])
      ensures session.Some? ==> r == sdk.listTools(session.value)
    {
      if session.None? {
        return Ok([]);
      }
      r := sdk.listTools(session.value);
    }

    /** chat(message) */
    method Chat(message: string, sdk: Sdk, model: Model, decode: string -> Option<Json>,
                rt: Runtime) returns (reply: Result<string, Exn>)
      ensures reply == ChatOutcome(session, sdk, message, model, decode, rt)
    {
      var tools := GetAvailableTools(sdk);
      if tools.Err? {
        return Err(tools.error);
      }
      var system := SystemPrompt(Join("\n", DescribeAll(tools.value, rt)));
      reply := Ok(Converse(session, sdk, system, message, model, decode, rt));
    }

    /** cleanup: the exit stack is closed; self.session still refers to the closed
        session. */
    method Cleanup()
      modifies this
      ensures entered == [] && session == old(session)
    {
      entered := [];
    }
  }
}
