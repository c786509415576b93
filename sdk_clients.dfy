/** What the genai and Ollama chat clients share: the script-extension check that picks
    the launcher, the projection of an MCP tool onto a model function declaration, the
    model's response as the clients read it, print_candidates as the lines it prints, and
    the chat loop's reading of queries up to `quit`. */
module SdkClients {
  import opened Common
  import opened JsonValues
  import S = SessionClient

  // ---------------------------------------------------------------------------
  // Launching the server script

  const ExtensionMessage := "Server script must be a .py or .js file"

  /** connect_to_server's check on the script arguments: the last one must end in `.py`
      (run with `uv`) or `.js` (run with `node`), and the whole list becomes the
      launcher's arguments. An empty list fails on `[-1]`. */
  function Launch(scriptArgs: seq<string>): (r: Result<S.ServerParams, Exn>)
    ensures |scriptArgs| == 0 ==> r == Err(IndexError)
    ensures |scriptArgs| > 0 ==>
      var last := scriptArgs[|scriptArgs| - 1];
      && (r.Err? <==> !EndsWith(last, ".py") && !EndsWith(last, ".js"))
      && (r.Err? ==> r.error == ValueError(ExtensionMessage))
      && (r.Ok? ==> r.value.args == scriptArgs
                    && (r.value.command == "uv" <==> EndsWith(last, ".py"))
                    && (r.value.command != "uv" ==> r.value.command == "node"))
  {
    if |scriptArgs| == 0 then Err(IndexError)
    else
      var last := scriptArgs[|scriptArgs| - 1];
      if !(EndsWith(last, ".py") || EndsWith(last, ".js")) then Err(ValueError(ExtensionMessage))
      else Ok(S.ServerParams(if EndsWith(last, ".py") then "uv" else "node", scriptArgs))
  }

  /** Against the SDK-session client's launcher for the same script: `.js` runs under
      `node` in both, `.py` under `uv` here and `python` there, and any other extension
      is refused here but run under `node` there. */
  lemma LaunchersCompared(path: string)
    ensures EndsWith(path, ".py") ==>
              Launch([path]) == Ok(S.ServerParams("uv", [path])) && S.Launcher(path).command == "python"
    ensures EndsWith(path, ".js") ==>
              Launch([path]) == Ok(S.ServerParams("node", [path])) && S.Launcher(path) == S.ServerParams("node", [path])
    ensures !EndsWith(path, ".py") && !EndsWith(path, ".js") ==>
              Launch([path]).Err? && S.Launcher(path).command == "node"
  {
  }

  /** What entering the transport and the session, then session.initialize(), raise
      (None when the connection is made). Unlike the SDK-session client, these clients
      catch nothing and ignore the initialisation result. */
  function Initialize(opening: S.Opening): Option<Exn>
  {
    match opening
    case SpawnRaised(e) => Some(e)
    case Opened(init) =>
      if init.ConnectFailed? || init.InitRaised? then Some(init.error) else None
  }

  // ---------------------------------------------------------------------------
  // Tool declarations

  /** A function declaration as the genai SDK takes it. */
  datatype Declaration = Declaration(name: string, description: Json, parameters: map<string, Json>)

  /** types.Tool */
  datatype ModelTool = ModelTool(functionDeclarations: seq<Declaration>)

  /** The declaration's parameters: the input schema without `additionalProperties` and
      `$schema`. A schema that is not a dict has no `items`. */
  function Parameters(schema: Json): (r: Result<map<string, Json>, Exn>)
    ensures r.Ok? <==> schema.JObj?
    ensures r.Ok? ==> forall k :: k in r.value <==>
                        k in schema.fields && k != "additionalProperties" && k != "$schema"
    ensures r.Ok? ==> forall k :: k in r.value ==> r.value[k] == schema.fields[k]
    ensures r.Ok? ==> "additionalProperties" !in r.value && "$schema" !in r.value
    ensures r.Ok? ==> r.value.Keys <= schema.fields.Keys
  {
    if schema.JObj? then
      Ok(map k | k in schema.fields && k != "additionalProperties" && k != "$schema" :: schema.fields[k])
    else Err(NoAttribute(TypeName(schema), "items"))
  }

  /** Projecting an already projected schema changes nothing. */
  lemma ParametersIdempotent(schema: Json)
    requires schema.JObj?
    ensures Parameters(JObj(Parameters(schema).value)) == Parameters(schema)
  {
    var once := Parameters(schema).value;
    var twice := Parameters(JObj(once)).value;
    assert forall k :: k in twice <==> k in once;
    assert forall k :: k in twice ==> twice[k] == once[k];
    assert twice == once;
  }

  /** A schema with neither stripped key passes through unchanged. */
  lemma ParametersKeepClean(schema: Json)
    requires schema.JObj? && "additionalProperties" !in schema.fields && "$schema" !in schema.fields
    ensures Parameters(schema) == Ok(schema.fields)
  {
    var kept := Parameters(schema).value;
    assert forall k :: k in kept <==> k in schema.fields;
    assert forall k :: k in kept ==> kept[k] == schema.fields[k];
    assert kept == schema.fields;
  }

  /** The one-declaration Tool for an MCP tool. */
  function Declare(tool: S.SdkTool): Result<ModelTool, Exn>
  {
    match Parameters(tool.inputSchema)
    case Err(e) => Err(e)
    case Ok(parameters) => Ok(ModelTool([Declaration(tool.name, tool.description, parameters)]))
  }

  /** The declaration list: one Tool per MCP tool, in order, each with exactly one
      declaration carrying that tool's name and description; the first schema that is
      not a dict raises. */
  function CreateToolList(tools: seq<S.SdkTool>): (r: Result<seq<ModelTool>, Exn>)
    ensures r.Ok? <==> forall k :: 0 <= k < |tools| ==> tools[k].inputSchema.JObj?
    ensures r.Ok? ==> |r.value| == |tools|
    ensures r.Ok? ==> forall k :: 0 <= k < |tools| ==>
              r.value[k] == ModelTool([Declaration(tools[k].name, tools[k].description,
                                                   Parameters(tools[k].inputSchema).value)])
  {
    if |tools| == 0 then Ok([])
    else match Declare(tools[0])
      case Err(e) => Err(e)
      case Ok(first) =>
        match CreateToolList(tools[1..])
        case Err(e) => Err(e)
        case Ok(rest) => Ok([first] + rest)
  }

  // ---------------------------------------------------------------------------
  // The model's response

  /** A function call the model asks for. A missing name is the empty name. */
  datatype FunctionCall = FunctionCall(name: string, args: Json)

  datatype Part = Part(text: Option<string>, functionCall: Option<FunctionCall>)

  datatype Candidate = Candidate(role: string, parts: seq<Part>)

  /** What the clients read of a GenerateContentResponse: `.text`, `.function_calls`
      (an absent list is the empty one) and `.candidates`. */
  datatype Response = Response(text: Option<string>, functionCalls: seq<FunctionCall>,
                               candidates: seq<Candidate>)

  /** generate_content(contents=prompt, tools=...): the response, or what it raises. */
  type Generate = (string, seq<ModelTool>) -> Result<Response, Exn>

  /** A truthy optional text. */
  predicate HasText(text: Option<string>)
  {
    text.Some? && text.value != ""
  }

  /** `response.text or ""` */
  function TextOr(text: Option<string>): (r: string)
    ensures HasText(text) ==> r == text.value
    ensures !HasText(text) ==> r == ""
    ensures text.Some? ==> r == text.value
    ensures r == "" <==> !HasText(text)
  {
    if HasText(text) then text.value else ""
  }

  /** [t.text for t in tool_result.content]: every item must be text. */
  function ToolTexts(result: S.ToolResult): (r: Result<seq<string>, Exn>)
    ensures r.Ok? <==> forall k :: 0 <= k < |result.content| ==> result.content[k].TextContent?
    ensures r.Ok? ==> |r.value| == |result.content|
    ensures r.Ok? ==> forall k :: 0 <= k < |r.value| ==> r.value[k] == result.content[k].text
    decreases |result.content|
  {
    if |result.content| == 0 then Ok([])
    else match result.content[0]
      case OtherContent(kind) => Err(NoAttribute(kind, "text"))
      case TextContent(t) =>
        match ToolTexts(S.ToolResult(result.content[1..]))
        case Err(e) => Err(e)
        case Ok(rest) => Ok([t] + rest)
  }

  // ---------------------------------------------------------------------------
  // print_candidates

  /** The three lines printed before a candidate's parts. */
  function Header(number: nat, role: string): seq<string>
  {
    ["Candidate #" + NatToDecimal(number), "Role       : " + role, "Content    :"]
  }

  /** What the text-only print_candidates prints for a part: its text, stripped, when
      the text is truthy, and nothing otherwise. */
  function TextLine(part: Part): seq<string>
  {
    if HasText(part.text) then [Strip(part.text.value)] else []
  }

  function TextPartLines(parts: seq<Part>): seq<string>
  {
    if |parts| == 0 then [] else TextLine(parts[0]) + TextPartLines(parts[1..])
  }

  /** print_candidates of the client that prints only text parts, numbering candidates
      from `number`. */
  function TextCandidateLines(candidates: seq<Candidate>, number: nat): seq<string>
  {
    if |candidates| == 0 then []
    else Header(number, candidates[0].role) + TextPartLines(candidates[0].parts)
         + TextCandidateLines(candidates[1..], number + 1)
  }

  /** What the other print_candidates prints for a part: its stripped text when truthy,
      else `name(args)` when the function call's name is truthy. A part with neither text
      nor function call fails on `None.name`. */
  function PartLine(part: Part, rt: Runtime): Result<seq<string>, Exn>
  {
    if HasText(part.text) then Ok([Strip(part.text.value)])
    else if part.functionCall.None? then Err(NoAttribute("NoneType", "name"))
    else if part.functionCall.value.name == "" then Ok([])
    else Ok([part.functionCall.value.name + "(" + Str(rt, part.functionCall.value.args) + ")"])
  }

  /** `before` followed by the lines of `r`, failing as `r` fails. */
  function Extend(before: seq<string>, r: Result<seq<string>, Exn>): Result<seq<string>, Exn>
  {
    match r
    case Err(e) => Err(e)
    case Ok(after) => Ok(before + after)
  }

  lemma ExtendNothing(r: Result<seq<string>, Exn>)
    ensures Extend([], r) == r
  {
    if r.Ok? {
      assert [] + r.value == r.value;
    }
  }

  lemma ExtendTwice(a: seq<string>, b: seq<string>, r: Result<seq<string>, Exn>)
    ensures Extend(a, Extend(b, r)) == Extend(a + b, r)
  {
    if r.Ok? {
      Regroup(a, b, r.value);
    }
  }

  function PartLines(parts: seq<Part>, rt: Runtime): Result<seq<string>, Exn>
  {
    if |parts| == 0 then Ok([])
    else match PartLine(parts[0], rt)
      case Err(e) => Err(e)
      case Ok(line) => Extend(line, PartLines(parts[1..], rt))
  }

  /** print_candidates of the clients that also print function-call parts. */
  function CandidateLines(candidates: seq<Candidate>, number: nat, rt: Runtime)
    : Result<seq<string>, Exn>
  {
    if |candidates| == 0 then Ok([])
    else match PartLines(candidates[0].parts, rt)
      case Err(e) => Err(e)
      case Ok(lines) =>
        Extend(Header(number, candidates[0].role) + lines,
               CandidateLines(candidates[1..], number + 1, rt))
  }

  /** A part without truthy text prints nothing in the text-only variant. */
  lemma {:induction false} SilentPart(before: seq<Part>, part: Part, after: seq<Part>)
    requires !HasText(part.text)
    ensures TextPartLines(before + [part] + after) == TextPartLines(before) + TextPartLines(after)
  {
    if |before| == 0 {
      assert before + [part] + after == [part] + after;
      assert ([part] + after)[1..] == after;
    } else {
      assert (before + [part] + after)[1..] == before[1..] + [part] + after;
      SilentPart(before[1..], part, after);
      Regroup(TextLine(before[0]), TextPartLines(before[1..]), TextPartLines(after));
    }
  }

  /** Candidates printed one after another keep counting from where the first batch left
      off. */
  lemma {:induction false} TextCandidatesAppend(a: seq<Candidate>, b: seq<Candidate>, number: nat)
    ensures TextCandidateLines(a + b, number)
            == TextCandidateLines(a, number) + TextCandidateLines(b, number + |a|)
    decreases |a|
  {
    if |a| == 0 {
      assert a + b == b;
    } else {
      assert (a + b)[0] == a[0] && (a + b)[1..] == a[1..] + b;
      TextCandidatesAppend(a[1..], b, number + 1);
      var head := Header(number, a[0].role) + TextPartLines(a[0].parts);
      assert TextCandidateLines(a, number) == head + TextCandidateLines(a[1..], number + 1);
      assert TextCandidateLines(a + b, number) == head + TextCandidateLines(a[1..] + b, number + 1);
      Regroup(head, TextCandidateLines(a[1..], number + 1), TextCandidateLines(b, number + |a|));
    }
  }

  /** A part with truthy text, one without and another with: the two texts stripped. */
  lemma MiddlePartSilent(first: Part, middle: Part, last: Part)
    requires HasText(first.text) && !HasText(middle.text) && HasText(last.text)
    ensures TextPartLines([first, middle, last]) == [Strip(first.text.value), Strip(last.text.value)]
  {
    var parts := [first, middle, last];
    assert parts[1..] == [middle, last] && parts[1..][1..] == [last] && [last][1..] == [];
    assert TextPartLines([last]) == [Strip(last.text.value)];
    assert TextPartLines([middle, last]) == [Strip(last.text.value)];
  }

  /** One candidate of role "model" with a text part, a part without text and another
      text part: the header, then the two texts stripped, and nothing for the middle
      part. */
  lemma MixedPartsPrinted(first: string, middle: Option<FunctionCall>, last: string)
    requires first != "" && last != ""
    ensures TextCandidateLines([Candidate("model", [Part(Some(first), None), Part(None, middle),
                                                    Part(Some(last), None)])], 1)
            == ["Candidate #1", "Role       : model", "Content    :", Strip(first), Strip(last)]
  {
    var c := Candidate("model", [Part(Some(first), None), Part(None, middle), Part(Some(last), None)]);
    MiddlePartSilent(c.parts[0], c.parts[1], c.parts[2]);
    assert NatToDecimal(1) == "1";
    assert "Candidate #" + NatToDecimal(1) == "Candidate #1";
    assert "Role       : " + "model" == "Role       : model";
    assert [c][1..] == [];
    assert TextCandidateLines([c], 1) == Header(1, "model") + TextPartLines(c.parts);
  }

  /** Where every part has truthy text, the two print_candidates print the same lines. */
  lemma {:induction false} PrintersAgreeOnText(candidates: seq<Candidate>, number: nat, rt: Runtime)
    requires forall i :: 0 <= i < |candidates| ==> AllText(candidates[i].parts)
    ensures CandidateLines(candidates, number, rt) == Ok(TextCandidateLines(candidates, number))
    decreases |candidates|
  {
    if |candidates| > 0 {
      PartsAgreeOnText(candidates[0].parts, rt);
      PrintersAgreeOnText(candidates[1..], number + 1, rt);
    }
  }

  predicate AllText(parts: seq<Part>)
  {
    forall j :: 0 <= j < |parts| ==> HasText(parts[j].text)
  }

  lemma {:induction false} PartsAgreeOnText(parts: seq<Part>, rt: Runtime)
    requires AllText(parts)
    ensures PartLines(parts, rt) == Ok(TextPartLines(parts))
    decreases |parts|
  {
    if |parts| > 0 {
      assert HasText(parts[0].text);
      assert AllText(parts[1..]) by {
        forall j | 0 <= j < |parts[1..]| ensures HasText(parts[1..][j].text) {
          assert parts[1..][j] == parts[j + 1];
        }
      }
      PartsAgreeOnText(parts[1..], rt);
    }
  }

  /** print_candidates raises exactly when some part has neither truthy text nor a
      function call. */
  lemma {:induction false} PartLinesFail(parts: seq<Part>, rt: Runtime)
    ensures PartLines(parts, rt).Err?
            <==> exists j :: 0 <= j < |parts| && Unprintable(parts[j])
    decreases |parts|
  {
    if |parts| > 0 {
      PartLinesFail(parts[1..], rt);
      if exists j :: 0 <= j < |parts[1..]| && Unprintable(parts[1..][j]) {
        var j :| 0 <= j < |parts[1..]| && Unprintable(parts[1..][j]);
        assert parts[j + 1] == parts[1..][j];
      }
      if exists j :: 0 <= j < |parts| && Unprintable(parts[j]) {
        var j :| 0 <= j < |parts| && Unprintable(parts[j]);
        if j > 0 {
          assert parts[1..][j - 1] == parts[j];
        }
      }
    }
  }

  predicate Unprintable(part: Part)
  {
    !HasText(part.text) && part.functionCall.None?
  }

  // ---------------------------------------------------------------------------
  // The session

  /** The session entered by connect_to_server: none when the script is refused or the
      transport fails to open. */
  function Entered(scriptArgs: seq<string>, open: S.Opener): Option<S.ServerParams>
  {
    match Launch(scriptArgs)
    case Err(_) => None
    case Ok(params) => if open(params).Opened? then Some(params) else None
  }

  /** What escapes connect_to_server before it lists any tools. */
  function ConnectRaised(scriptArgs: seq<string>, open: S.Opener): Option<Exn>
  {
    match Launch(scriptArgs)
    case Err(e) => Some(e)
    case Ok(params) => Initialize(open(params))
  }

  /** A refused script raises before the launcher is used: whatever spawning would do,
      no session is entered and the same error escapes. A session is entered only for
      the launcher of an accepted script, and when none is, something escapes. */
  lemma ConnectCases(scriptArgs: seq<string>, open: S.Opener, other: S.Opener)
    ensures Launch(scriptArgs).Err? ==>
              && Entered(scriptArgs, open) == Entered(scriptArgs, other) == None
              && ConnectRaised(scriptArgs, open) == ConnectRaised(scriptArgs, other)
                 == Some(Launch(scriptArgs).error)
    ensures Entered(scriptArgs, open).Some? ==>
              && Launch(scriptArgs) == Ok(Entered(scriptArgs, open).value)
              && open(Entered(scriptArgs, open).value).Opened?
    ensures Entered(scriptArgs, open).None? ==> ConnectRaised(scriptArgs, open).Some?
  {
  }

  /** session.list_tools() turned into declarations; without a session, `list_tools` is
      looked up on None. */
  function ToolList(session: Option<S.ServerParams>, sdk: S.Sdk): Result<seq<ModelTool>, Exn>
  {
    if session.None? then Err(NoAttribute("NoneType", "list_tools"))
    else match sdk.listTools(session.value)
      case Err(e) => Err(e)
      case Ok(tools) => CreateToolList(tools)
  }

  /** session.call_tool(name=..., arguments=...) for a function call. */
  type Caller = FunctionCall -> Result<S.ToolResult, Exn>

  function SessionCaller(session: Option<S.ServerParams>, sdk: S.Sdk): Caller
  {
    (c: FunctionCall) =>
      if session.None? then Err(NoAttribute("NoneType", "call_tool"))
      else sdk.callTool(session.value, JStr(c.name), c.args)
  }

  /** session.read_resource(uri).contents */
  type Reader = (S.ServerParams, string) -> Result<seq<S.Content>, Exn>

  // ---------------------------------------------------------------------------
  // parse_answer

  /** What parse_answer ends in: the answer text, an exception, or running out of the
      fuel that bounds its recursion in this model. */
  datatype Parsed = Answer(text: string) | Failed(error: Exn) | OutOfFuel

  /** The follow-up prompts parse_answer sends, in order, and how it ends. */
  datatype Parse = Parse(prompts: seq<string>, ending: Parsed)

  function Sent(prompt: string, rest: Parse): Parse
  {
    Parse([prompt] + rest.prompts, rest.ending)
  }

  /** The follow-up prompt for a function call: `pre` and the texts of the tool's answer,
      joined with a blank line. */
  function FollowUpPrompt(pre: string, first: FunctionCall, call: Caller): (r: Result<string, Exn>)
    ensures r.Ok? ==> pre <= r.value
    ensures r.Ok? <==> call(first).Ok? && ToolTexts(call(first).value).Ok?
    ensures r.Ok? ==> r.value == Join("\n\n", [pre] + ToolTexts(call(first).value).value)
  {
    match call(first)
    case Err(e) => Err(e)
    case Ok(answer) =>
      match ToolTexts(answer)
      case Err(e) => Err(e)
      case Ok(texts) =>
        JoinStartsWith("\n\n", pre, texts);
        Ok(Join("\n\n", [pre] + texts))
  }

  lemma JoinStartsWith(sep: string, first: string, rest: seq<string>)
    ensures first <= Join(sep, [first] + rest)
  {
    if |rest| > 0 {
      assert ([first] + rest)[1..] == rest;
    }
  }

  // ---------------------------------------------------------------------------
  // The chat loop

  /** `query.lower() == "quit"` after strip. */
  predicate Quits(line: string)
  {
    IsQuit(Strip(line))
  }

  /** What the loop prints for a caught exception. */
  function Caught(rt: Runtime, e: Exn): seq<string>
  {
    ["\nError: " + ExnText(rt, e)]
  }

  /** What one turn of a chat loop does for the query read at input index k: the lines it
      prints, or the requests it makes. */
  type Turn<T> = (nat, string) -> seq<T>

  /** What chat_loop does for the input lines from index k on: one turn per stripped query
      until `quit`. */
  function Transcript<T>(inputs: seq<string>, turn: Turn<T>, k: nat): seq<T>
    decreases |inputs|
  {
    if |inputs| == 0 || Quits(inputs[0]) then []
    else turn(k, Strip(inputs[0])) + Transcript(inputs[1..], turn, k + 1)
  }

  /** One pass of the loop: after line i's turn, what is done and what is left still
      make up the whole transcript. */
  lemma LoopStep<T>(done: seq<T>, inputs: seq<string>, turn: Turn<T>, i: nat)
    requires i < |inputs| && !Quits(inputs[i])
    requires done + Transcript(inputs[i..], turn, i) == Transcript(inputs, turn, 0)
    ensures (done + turn(i, Strip(inputs[i]))) + Transcript(inputs[i + 1..], turn, i + 1)
      == Transcript(inputs, turn, 0)
  {
    assert inputs[i..][1..] == inputs[i + 1..];
    RegroupAny(done, turn(i, Strip(inputs[i])), Transcript(inputs[i + 1..], turn, i + 1));
  }

  /** The loop: read, strip, stop at `quit`, otherwise run the turn, whose exceptions the
      turn itself has already turned into printed lines. */
  method RunLoop<T>(inputs: seq<string>, turn: Turn<T>) returns (out: seq<T>)
    ensures out == Transcript(inputs, turn, 0)
  {
    out := [];
    var i := 0;
    assert inputs[0..] == inputs;
    while i < |inputs|
      invariant i <= |inputs|
      invariant out + Transcript(inputs[i..], turn, i) == Transcript(inputs, turn, 0)
    {
      var query := Strip(inputs[i]);
      if IsQuit(query) {
        assert out + [] == out;
        return;
      }
      assert inputs[i..][1..] == inputs[i + 1..];
      RegroupAny(out, turn(i, query), Transcript(inputs[i + 1..], turn, i + 1));
      out := out + turn(i, query);
      i := i + 1;
    }
    assert out + [] == out;
  }

  lemma RegroupAny<T>(a: seq<T>, b: seq<T>, c: seq<T>)
    ensures a + (b + c) == (a + b) + c
  {
  }

  /** Nothing after the first `quit` is read. */
  lemma {:induction false} QuitEndsLoop<T>(before: seq<string>, quit: string, after: seq<string>,
                                           turn: Turn<T>, k: nat)
    requires Quits(quit)
    ensures Transcript(before + [quit] + after, turn, k) == Transcript(before, turn, k)
    decreases |before|
  {
    if |before| == 0 {
      assert (before + [quit] + after)[0] == quit;
    } else if !Quits(before[0]) {
      assert (before + [quit] + after)[1..] == before[1..] + [quit] + after;
      QuitEndsLoop(before[1..], quit, after, turn, k + 1);
    } else {
      assert (before + [quit] + after)[0] == before[0];
    }
  }

  /** Without `quit`, every line is a query and gets exactly its own turn, whatever the
      turns before it did. */
  lemma {:induction false} EveryQueryAnswered<T>(inputs: seq<string>, line: string, turn: Turn<T>,
                                                 k: nat)
    requires forall j :: 0 <= j < |inputs| ==> !Quits(inputs[j])
    requires !Quits(line)
    ensures Transcript(inputs + [line], turn, k)
            == Transcript(inputs, turn, k) + turn(k + |inputs|, Strip(line))
    decreases |inputs|
  {
    if |inputs| == 0 {
      assert [] + [line] == [line];
      assert [line][1..] == [];
      assert turn(k, Strip(line)) + [] == turn(k, Strip(line));
    } else {
      assert (inputs + [line])[1..] == inputs[1..] + [line];
      assert !Quits(inputs[0]);
      EveryQueryAnswered(inputs[1..], line, turn, k + 1);
      RegroupAny(turn(k, Strip(inputs[0])), Transcript(inputs[1..], turn, k + 1),
                 turn(k + |inputs|, Strip(line)));
    }
  }

  // ---------------------------------------------------------------------------
  // The loop turn of the clients that answer through parse_answer

  const TemplateTail := "\n날씨에 대해서는 도구를 반드시 이용하여야하며, \n필요한 경우, 도구에 필요한 입력값(예: 위도/경도)은 묻지말고 스스로 찾도록 할 것.\n"

  /** The prompt wrapped around the user's query. */
  function TemplatePrompt(query: string): string
  {
    "\n" + query + TemplateTail
  }

  const ProfileUri := "knowledge://profile/alice"

  /** The profile line printed after each answer: `content: ` and the first resource
      text. */
  function ProfileLines(session: Option<S.ServerParams>, read: Reader, rt: Runtime): seq<string>
  {
    if session.None? then Caught(rt, NoAttribute("NoneType", "read_resource"))
    else match read(session.value, ProfileUri)
      case Err(e) => Caught(rt, e)
      case Ok(contents) =>
        if |contents| == 0 then Caught(rt, IndexError)
        else match contents[0]
          case TextContent(t) => ["content: " + t]
          case OtherContent(kind) => Caught(rt, NoAttribute(kind, "text"))
  }

  /** An exception of the inner try: a ClientError is printed and the turn goes on to
      the profile; anything else ends the turn in the outer handler. */
  function Inner(e: Exn, session: Option<S.ServerParams>, read: Reader, rt: Runtime): seq<string>
  {
    if e.ApiError? then ["[" + e.status + ": " + e.message] + ProfileLines(session, read, rt)
    else Caught(rt, e)
  }

  /** One turn: the templated query goes to the model, parse_answer folds the answer,
      its result is printed, then the profile resource. An out-of-fuel parse prints
      nothing. */
  function TemplateTurn(query: string, generate: Generate, tools: seq<ModelTool>,
                        parse: (string, Response) -> Parsed,
                        session: Option<S.ServerParams>, read: Reader, rt: Runtime)
    : (r: seq<string>)
    ensures generate(TemplatePrompt(query), tools).Ok?
            && parse(query, generate(TemplatePrompt(query), tools).value).Answer? ==>
              && |r| == 1 + |ProfileLines(session, read, rt)|
              && r[0] == parse(query, generate(TemplatePrompt(query), tools).value).text
    ensures generate(TemplatePrompt(query), tools).Err? && !generate(TemplatePrompt(query), tools).error.ApiError? ==>
              r == Caught(rt, generate(TemplatePrompt(query), tools).error)
  {
    match generate(TemplatePrompt(query), tools)
    case Err(e) => Inner(e, session, read, rt)
    case Ok(response) =>
      match parse(query, response)
      case Answer(text) => [text] + ProfileLines(session, read, rt)
      case Failed(e) => Inner(e, session, read, rt)
      case OutOfFuel => []
  }
}
