/** The Gemini-CLI tool server: a fixed catalogue of three tools, and a dispatcher that
    turns a tool name and its arguments into a `gemini` command line with a timeout, then
    turns the command's outcome into a text result. Running the command is a parameter. */
module GeminiCliServer {
  import opened Common
  import opened JsonValues

  // ---------------------------------------------------------------------------
  // The catalogue

  datatype Tool = Tool(name: string, description: string, inputSchema: Json)

  /** A string property of an input schema. */
  function Property(description: string): Json
  {
    JObj(map["type" := JStr("string"), "description" := JStr(description)])
  }

  /** A string property with a default. */
  function Defaulted(description: string, default: string): Json
  {
    JObj(map["type" := JStr("string"), "description" := JStr(description),
             "default" := JStr(default)])
  }

  function Schema(properties: map<string, Json>, required: seq<string>): Json
  {
    JObj(map["type" := JStr("object"), "properties" := JObj(properties),
             "required" := JArr(seq(|required|, k requires 0 <= k < |required| => JStr(required[k])))])
  }

  const DefaultModel := "gemini-pro"
  const DefaultSession := "default"

  const QueryTool: Tool :=
    Tool("gemini_query", "Gemini AI에게 질문하고 응답받기",
         Schema(map["query" := Property("Gemini에게 보낼 질문"),
                    "model" := Defaulted("사용할 Gemini 모델 (기본값: gemini-pro)", DefaultModel)],
                ["query"]))

  const ChatTool: Tool :=
    Tool("gemini_chat", "Gemini와 대화형 채팅",
         Schema(map["message" := Property("채팅 메시지"),
                    "session_id" := Defaulted("채팅 세션 ID (선택사항)", DefaultSession)],
                ["message"]))

  const ImageTool: Tool :=
    Tool("gemini_image_analysis", "이미지 분석 요청",
         Schema(map["image_path" := Property("분석할 이미지 파일 경로"),
                    "prompt" := Property("이미지에 대한 질문 또는 분석 요청")],
                ["image_path", "prompt"]))

  /** list_tools */
  function ListTools(): seq<Tool>
  {
    [QueryTool, ChatTool, ImageTool]
  }

  /** The keys an input schema lists under "required". */
  function Required(schema: Json): seq<string>
  {
    if schema.JObj? && "required" in schema.fields && schema.fields["required"].JArr? then
      var items := schema.fields["required"].items;
      seq(|items|, k requires 0 <= k < |items| => if items[k].JStr? then items[k].s else "")
    else []
  }

  /** The default an input schema declares for a property, if any. */
  function DeclaredDefault(schema: Json, property: string): Option<Json>
  {
    if schema.JObj? && "properties" in schema.fields && schema.fields["properties"].JObj?
       && property in schema.fields["properties"].fields
       && schema.fields["properties"].fields[property].JObj?
       && "default" in schema.fields["properties"].fields[property].fields
    then Some(schema.fields["properties"].fields[property].fields["default"])
    else None
  }

  /** The catalogue holds exactly the three tools, requiring `query`, `message`, and
      `image_path` with `prompt`. */
  lemma CatalogueContents()
    ensures |ListTools()| == 3
    ensures ListTools()[0].name == "gemini_query" && Required(ListTools()[0].inputSchema) == ["query"]
    ensures ListTools()[1].name == "gemini_chat" && Required(ListTools()[1].inputSchema) == ["message"]
    ensures ListTools()[2].name == "gemini_image_analysis"
            && Required(ListTools()[2].inputSchema) == ["image_path", "prompt"]
  {
    assert Required(QueryTool.inputSchema) == ["query"];
    assert Required(ChatTool.inputSchema) == ["message"];
    assert Required(ImageTool.inputSchema) == ["image_path", "prompt"];
  }

  // ---------------------------------------------------------------------------
  // Dispatch

  /** A command line for subprocess.run and its timeout in seconds. The arguments are
      passed through unconverted, so an element may be any value. */
  datatype Invocation = Invocation(argv: seq<Json>, timeout: nat)

  /** What call_tool decides before running anything: an unknown tool, a required
      argument missing (the KeyError of `arguments[key]`), or a command to run. */
  datatype Plan = Unknown | Missing(error: Exn) | Invoke(invocation: Invocation)

  /** arguments.get(key, default) */
  function GetOr(arguments: map<string, Json>, key: string, default: string): Json
  {
    if key in arguments then arguments[key] else JStr(default)
  }

  function Gemini(verb: string, flag: string, option: Json, operand: Json, timeout: nat): Invocation
  {
    Invocation([JStr("gemini"), JStr(verb), JStr(flag), option, operand], timeout)
  }

  /** The branches of call_tool up to the subprocess call. */
  function PlanFor(name: string, arguments: map<string, Json>): Plan
  {
    if name == "gemini_query" then
      if "query" !in arguments then Missing(KeyError(JStr("query")))
      else Invoke(Gemini("query", "--model", GetOr(arguments, "model", DefaultModel),
                         arguments["query"], 30))
    else if name == "gemini_chat" then
      if "message" !in arguments then Missing(KeyError(JStr("message")))
      else Invoke(Gemini("chat", "--session", GetOr(arguments, "session_id", DefaultSession),
                         arguments["message"], 30))
    else if name == "gemini_image_analysis" then
      if "image_path" !in arguments then Missing(KeyError(JStr("image_path")))
      else if "prompt" !in arguments then Missing(KeyError(JStr("prompt")))
      else Invoke(Gemini("analyze", "--image", arguments["image_path"], arguments["prompt"], 60))
    else Unknown
  }

  /** What subprocess.run gives back: the finished process, the TimeoutExpired it raises
      when the timeout passes, or any other exception. */
  datatype Outcome =
    | Exited(returncode: int, stdout: string, stderr: string)
    | TimedOut
    | Failed(error: Exn)

  type Runner = Invocation -> Outcome

  /** A CallToolResult: the texts of its content items and its isError flag. */
  datatype CallToolResult = CallToolResult(content: seq<string>, isError: bool)

  const ErrorPrefix := "오류: "
  const UnknownToolPrefix := "알 수 없는 도구: "
  const TimeoutText := "요청 시간 초과"
  const ExecutionErrorPrefix := "실행 오류: "

  /** The result for a command that was run. */
  function Report(outcome: Outcome, rt: Runtime): CallToolResult
  {
    match outcome
    case Exited(code, out, err) =>
      if code == 0 then CallToolResult([Strip(out)], false)
      else CallToolResult([ErrorPrefix + err], true)
    case TimedOut => CallToolResult([TimeoutText], true)
    case Failed(e) => CallToolResult([ExecutionErrorPrefix + ExnText(rt, e)], true)
  }

  /** call_tool(name, arguments). Every exception is caught, so a result always comes
      back. */
  function CallTool(name: string, arguments: map<string, Json>, run: Runner, rt: Runtime)
    : (r: CallToolResult)
    ensures |r.content| == 1
  {
    match PlanFor(name, arguments)
    case Unknown => CallToolResult([UnknownToolPrefix + name], true)
    case Missing(e) => CallToolResult([ExecutionErrorPrefix + ExnText(rt, e)], true)
    case Invoke(invocation) => Report(run(invocation), rt)
  }

  // ---------------------------------------------------------------------------
  // Properties

  /** A command is built exactly when the tool is in the catalogue and every argument its
      schema requires is present. */
  lemma PlanIffRequired(k: nat, arguments: map<string, Json>)
    requires k < |ListTools()|
    ensures var tool := ListTools()[k];
      PlanFor(tool.name, arguments).Invoke?
      <==> forall key :: key in Required(tool.inputSchema) ==> key in arguments
  {
    CatalogueContents();
  }

  /** A name outside the catalogue is the only way to get Unknown. */
  lemma UnknownIffNotListed(name: string, arguments: map<string, Json>)
    ensures PlanFor(name, arguments).Unknown?
            <==> forall k :: 0 <= k < |ListTools()| ==> ListTools()[k].name != name
  {
    CatalogueContents();
  }

  /** gemini_query runs `gemini query --model <model> <query>` for 30 seconds; the model
      defaults to the one its schema declares. */
  lemma QueryCommand(arguments: map<string, Json>)
    requires "query" in arguments
    ensures var model := if "model" in arguments then arguments["model"]
                         else DeclaredDefault(QueryTool.inputSchema, "model").value;
      && DeclaredDefault(QueryTool.inputSchema, "model") == Some(JStr("gemini-pro"))
      && PlanFor("gemini_query", arguments)
         == Invoke(Invocation([JStr("gemini"), JStr("query"), JStr("--model"), model,
                               arguments["query"]], 30))
  {
  }

  /** gemini_chat runs `gemini chat --session <id> <message>` for 30 seconds; the session
      defaults to the one its schema declares. */
  lemma ChatCommand(arguments: map<string, Json>)
    requires "message" in arguments
    ensures var session := if "session_id" in arguments then arguments["session_id"]
                           else DeclaredDefault(ChatTool.inputSchema, "session_id").value;
      && DeclaredDefault(ChatTool.inputSchema, "session_id") == Some(JStr("default"))
      && PlanFor("gemini_chat", arguments)
         == Invoke(Invocation([JStr("gemini"), JStr("chat"), JStr("--session"), session,
                               arguments["message"]], 30))
  {
  }

  /** gemini_image_analysis runs `gemini analyze --image <path> <prompt>` for 60 seconds;
      neither argument has a default. */
  lemma ImageCommand(arguments: map<string, Json>)
    requires "image_path" in arguments && "prompt" in arguments
    ensures DeclaredDefault(ImageTool.inputSchema, "image_path").None?
    ensures DeclaredDefault(ImageTool.inputSchema, "prompt").None?
    ensures PlanFor("gemini_image_analysis", arguments)
            == Invoke(Invocation([JStr("gemini"), JStr("analyze"), JStr("--image"),
                                  arguments["image_path"], arguments["prompt"]], 60))
  {
  }

  /** Only the planned command is run: two runners that agree on it give the same result,
      and without a plan no runner is consulted at all. */
  lemma RunsOnlyThePlan(name: string, arguments: map<string, Json>, run1: Runner,
                        run2: Runner, rt: Runtime)
    requires PlanFor(name, arguments).Invoke? ==>
               run1(PlanFor(name, arguments).invocation) == run2(PlanFor(name, arguments).invocation)
    ensures CallTool(name, arguments, run1, rt) == CallTool(name, arguments, run2, rt)
  {
  }

  /** An unknown name gives the not-found text as an error. */
  lemma UnknownTool(name: string, arguments: map<string, Json>, run: Runner, rt: Runtime)
    requires forall k :: 0 <= k < |ListTools()| ==> ListTools()[k].name != name
    ensures CallTool(name, arguments, run, rt) == CallToolResult([UnknownToolPrefix + name], true)
  {
    UnknownIffNotListed(name, arguments);
  }

  /** The result is an error unless the command ran and exited with 0, in which case it
      is the stripped standard output. */
  lemma SuccessIffExitZero(name: string, arguments: map<string, Json>, run: Runner, rt: Runtime)
    ensures var r := CallTool(name, arguments, run, rt);
      var plan := PlanFor(name, arguments);
      && (!r.isError <==> plan.Invoke? && run(plan.invocation).Exited?
                          && run(plan.invocation).returncode == 0)
      && (!r.isError ==> r.content == [Strip(run(plan.invocation).stdout)])
  {
  }

  /** The outcome of a command that was run, by case. */
  lemma ReportCases(outcome: Outcome, rt: Runtime)
    ensures outcome.Exited? && outcome.returncode != 0 ==>
              Report(outcome, rt) == CallToolResult([ErrorPrefix + outcome.stderr], true)
    ensures outcome.TimedOut? ==> Report(outcome, rt) == CallToolResult([TimeoutText], true)
    ensures outcome.Failed? ==>
              Report(outcome, rt)
              == CallToolResult([ExecutionErrorPrefix + ExnText(rt, outcome.error)], true)
  {
  }

  /** A missing required argument is reported as an execution error, without running
      anything. */
  lemma MissingArgument(k: nat, arguments: map<string, Json>, run: Runner, rt: Runtime)
    requires k < |ListTools()|
    requires exists key :: key in Required(ListTools()[k].inputSchema) && key !in arguments
    ensures var r := CallTool(ListTools()[k].name, arguments, run, rt);
      r.isError && |r.content| == 1 && OccursAt(r.content[0], ExecutionErrorPrefix, 0)
  {
    PlanIffRequired(k, arguments);
    var tool := ListTools()[k];
    var e := PlanFor(tool.name, arguments).error;
    assert (ExecutionErrorPrefix + ExnText(rt, e))[..|ExecutionErrorPrefix|] == ExecutionErrorPrefix;
  }
}
