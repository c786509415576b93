/** The line-delimited calculator server: one JSON-RPC request per input line, one JSON
    reply per non-blank line, after an initialization result it prints unasked. Only
    `tools/list` and `tools/call` (of the one tool `calculator`) are routed; the
    expression passes a character whitelist before an evaluator sees it. */
module CalculatorServer {
  import opened Common
  import opened JsonValues
  import opened Streams

  /** The characters calculate lets through to eval. */
  const Allowed := "0123456789+-*/.() "

  const MethodNotFound := -32601
  const ParseError := -32700
  /** The code a failed calculation is reported with. */
  const CalcFailed := -1

  const CalcErrorPrefix := "계산 오류: "
  const DisallowedText := "허용되지 않은 문자가 포함되어 있습니다"
  const UnknownToolPrefix := "알 수 없는 도구: "
  const UnknownMethodPrefix := "알 수 없는 메소드: "
  const ResultPrefix := "계산 결과: "

  /** The value eval returned, as far as formatting it with str() goes: its text, or the
      message of the ValueError str() raises (CPython refuses to convert an int of more
      than `sys.int_max_str_digits` digits, 4300 by default). */
  datatype Value = Printable(text: string) | Unprintable(message: string)

  /** eval(expression): the value it returns, or str() of what it raised. */
  type Evaluator = string -> Result<Value, string>

  // ---------------------------------------------------------------------------
  // Replies

  function ErrorReply(code: int, message: string): Json
  {
    JObj(map["jsonrpc" := JStr("2.0"),
             "error" := JObj(map["code" := JInt(code), "message" := JStr(message)])])
  }

  function ResultReply(result: Json): Json
  {
    JObj(map["jsonrpc" := JStr("2.0"), "result" := result])
  }

  /** A `tools/call` result carrying one text item. */
  function TextResult(text: string): Json
  {
    ResultReply(JObj(map["content" := JArr([JObj(map["type" := JStr("text"),
                                                     "text" := JStr(text)])])]))
  }

  /** The descriptor of the one tool the server offers. */
  const CalculatorTool: Json :=
    JObj(map[
      "name" := JStr("calculator"),
      "description" := JStr("기본적인 수학 계산을 수행합니다"),
      "inputSchema" := JObj(map[
        "type" := JStr("object"),
        "properties" := JObj(map[
          "expression" := JObj(map[
            "type" := JStr("string"),
            "description" := JStr("계산할 수학 표현식 (예: '2 + 3 * 4')")])]),
        "required" := JArr([JStr("expression")])])])

  /** The result run() prints before it reads anything. */
  const InitReply: Json :=
    ResultReply(JObj(map[
      "protocolVersion" := JStr("2024-11-05"),
      "capabilities" := JObj(map["tools" := JObj(map[])]),
      "serverInfo" := JObj(map["name" := JStr("calculator-server"),
                               "version" := JStr("1.0.0")])]))

  const ParseErrorReply: Json := ErrorReply(ParseError, "JSON 파싱 오류")

  // ---------------------------------------------------------------------------
  // calculate

  /** `c in allowed_chars` for one element that iterating the expression yields. */
  function AllowedMember(c: Json): Result<bool, Exn>
  {
    if !Hashable(c) then Err(Unhashable(TypeName(c)))
    else Ok(c.JStr? && |c.s| == 1 && c.s[0] in Allowed)
  }

  /** all(c in allowed_chars for c in items): stops at the first False or exception. */
  function AllAllowed(items: seq<Json>): Result<bool, Exn>
  {
    if |items| == 0 then Ok(true)
    else match AllowedMember(items[0])
      case Err(e) => Err(e)
      case Ok(b) => if b then AllAllowed(items[1..]) else Ok(false)
  }

  /** The whitelist test of calculate over whatever the `expression` argument holds: the
      characters of a string, the elements of a list, the keys of a dict; other values
      cannot be iterated. */
  function Whitelist(expression: Json): Result<bool, Exn>
  {
    match expression
    case JStr(s) => Ok(forall k :: 0 <= k < |s| ==> s[k] in Allowed)
    case JArr(items) => AllAllowed(items)
    case JObj(fields) => Ok(forall k :: k in fields ==> |k| == 1 && k[0] in Allowed)
    case _ => Err(NotIterable(TypeName(expression)))
  }

  /** calculate(expression): eval's value, unconverted, or the message of the ValueError it
      raises; every failure, the whitelist's own included, is rewrapped with the
      "계산 오류: " prefix. */
  function Calculate(expression: Json, eval: Evaluator, rt: Runtime): (r: Result<Value, string>)
    ensures r.Err? ==> StartsWith(r.error, CalcErrorPrefix)
  {
    match Whitelist(expression)
    case Err(e) => Err(CalcErrorPrefix + ExnText(rt, e))
    case Ok(ok) =>
      if !ok then Err(CalcErrorPrefix + DisallowedText)
      else if !expression.JStr? then Err(CalcErrorPrefix + ExnText(rt, EvalArg(TypeName(expression))))
      else match eval(expression.s)
        case Ok(v) => Ok(v)
        case Err(m) => Err(CalcErrorPrefix + m)
  }

  predicate StartsWith(s: string, prefix: string)
  {
    |prefix| <= |s| && s[..|prefix|] == prefix
  }

  /** A string with a character outside the whitelist is rejected before eval runs:
      the answer is the same whatever the evaluator would have done. */
  lemma CalculateRejects(s: string, eval: Evaluator, other: Evaluator, rt: Runtime, k: nat)
    requires k < |s| && s[k] !in Allowed
    ensures Calculate(JStr(s), eval, rt) == Err(CalcErrorPrefix + DisallowedText)
    ensures Calculate(JStr(s), eval, rt) == Calculate(JStr(s), other, rt)
  {
  }

  /** A string made of whitelisted characters only goes to eval, whose failure is
      rewrapped. */
  lemma CalculateAdmits(s: string, eval: Evaluator, rt: Runtime)
    requires forall k :: 0 <= k < |s| ==> s[k] in Allowed
    ensures eval(s).Ok? ==> Calculate(JStr(s), eval, rt) == Ok(eval(s).value)
    ensures eval(s).Err? ==> Calculate(JStr(s), eval, rt) == Err(CalcErrorPrefix + eval(s).error)
  {
  }

  // ---------------------------------------------------------------------------
  // Handlers

  /** handle_list_tools() */
  function ListTools(): Json
  {
    ResultReply(JObj(map["tools" := JArr([CalculatorTool])]))
  }

  /** handle_call_tool(tool_name, arguments) */
  function CallTool(toolName: Json, arguments: Json, eval: Evaluator, rt: Runtime): Json
  {
    if toolName != JStr("calculator") then
      ErrorReply(MethodNotFound, UnknownToolPrefix + Str(rt, toolName))
    else match Get(arguments, "expression", JStr(""))
      case Err(e) => ErrorReply(CalcFailed, ExnText(rt, e))
      case Ok(expression) =>
        match Calculate(expression, eval, rt)
        case Err(message) => ErrorReply(CalcFailed, message)
        case Ok(Printable(text)) => TextResult(ResultPrefix + Str(rt, expression) + " = " + text)
        case Ok(Unprintable(message)) => ErrorReply(CalcFailed, message)
  }

  /** handle_request(request): Err when an exception escapes it (`request` or its
      `params` is not a dict, so `.get` does not exist). */
  function HandleRequest(request: Json, eval: Evaluator, rt: Runtime): Result<Json, Exn>
  {
    match Get(request, "method", JNull)
    case Err(e) => Err(e)
    case Ok(rpcMethod) =>
      match Get(request, "params", JObj(map[]))
      case Err(e) => Err(e)
      case Ok(params) =>
        if rpcMethod == JStr("tools/list") then Ok(ListTools())
        else if rpcMethod == JStr("tools/call") then
          match Get(params, "name", JNull)
          case Err(e) => Err(e)
          case Ok(name) =>
            match Get(params, "arguments", JObj(map[]))
            case Err(e) => Err(e)
            case Ok(arguments) => Ok(CallTool(name, arguments, eval, rt))
        else Ok(ErrorReply(MethodNotFound, UnknownMethodPrefix + Str(rt, rpcMethod)))
  }

  /** The outcomes of a tool call: an unknown tool is code -32601; on the calculator, a
      failure (no `.get` on the arguments, calculate raising, or formatting its value
      raising) is code -1 carrying the exception's text; a value that formats is exactly
      one text item. */
  lemma CallToolOutcomes(toolName: Json, arguments: Json, eval: Evaluator, rt: Runtime)
    ensures toolName != JStr("calculator") ==>
      CallTool(toolName, arguments, eval, rt)
        == ErrorReply(MethodNotFound, UnknownToolPrefix + Str(rt, toolName))
    ensures toolName == JStr("calculator") && !arguments.JObj? ==>
      CallTool(toolName, arguments, eval, rt)
        == ErrorReply(CalcFailed, rt.builtinText(NoAttribute(TypeName(arguments), "get")))
    ensures toolName == JStr("calculator") && arguments.JObj? ==>
      var expression := if "expression" in arguments.fields then arguments.fields["expression"]
                        else JStr("");
      var r := Calculate(expression, eval, rt);
      var reply := CallTool(toolName, arguments, eval, rt);
      && (r.Err? ==> reply == ErrorReply(CalcFailed, r.error))
      && (r.Ok? && r.value.Printable? ==>
            reply == TextResult(ResultPrefix + Str(rt, expression) + " = " + r.value.text))
      && (r.Ok? && r.value.Unprintable? ==> reply == ErrorReply(CalcFailed, r.value.message))
  {
  }

  /** Only `tools/list` and `tools/call` are routed; any other method, `initialize`
      included, and a missing one (None) are answered with -32601. */
  lemma OtherMethodsNotFound(fields: map<string, Json>, eval: Evaluator, rt: Runtime)
    requires var m := if "method" in fields then fields["method"] else JNull;
      m != JStr("tools/list") && m != JStr("tools/call")
    ensures var m := if "method" in fields then fields["method"] else JNull;
      HandleRequest(JObj(fields), eval, rt)
        == Ok(ErrorReply(MethodNotFound, UnknownMethodPrefix + Str(rt, m)))
  {
  }

  lemma ListToolsRouted(fields: map<string, Json>, eval: Evaluator, rt: Runtime)
    requires "method" in fields && fields["method"] == JStr("tools/list")
    ensures HandleRequest(JObj(fields), eval, rt) == Ok(ListTools())
  {
  }

  /** A missing `params` is the empty dict. */
  lemma ParamsDefault(fields: map<string, Json>, eval: Evaluator, rt: Runtime)
    requires "params" !in fields
    ensures HandleRequest(JObj(fields), eval, rt)
            == HandleRequest(JObj(fields["params" := JObj(map[])]), eval, rt)
  {
    var g := fields["params" := JObj(map[])];
    assert ("method" in g) == ("method" in fields);
    assert "method" in fields ==> g["method"] == fields["method"];
  }

  /** Missing `arguments` are the empty dict. */
  lemma ArgumentsDefault(fields: map<string, Json>, params: map<string, Json>,
                         eval: Evaluator, rt: Runtime)
    requires "arguments" !in params
    ensures HandleRequest(JObj(fields["params" := JObj(params)]), eval, rt)
            == HandleRequest(JObj(fields["params" := JObj(params["arguments" := JObj(map[])])]),
                             eval, rt)
  {
    var p' := params["arguments" := JObj(map[])];
    assert ("name" in p') == ("name" in params);
    assert "name" in params ==> p'["name"] == params["name"];
  }

  /** A missing `expression` is the empty string. */
  lemma ExpressionDefault(arguments: map<string, Json>, eval: Evaluator, rt: Runtime)
    requires "expression" !in arguments
    ensures CallTool(JStr("calculator"), JObj(arguments), eval, rt)
            == CallTool(JStr("calculator"), JObj(arguments["expression" := JStr("")]), eval, rt)
  {
  }

  /** No reply the server builds carries an `id`: requests are not correlated with
      their replies. */
  predicate NoId(reply: Json)
  {
    reply.JObj? && "id" !in reply.fields
  }

  lemma RepliesCarryNoId(request: Json, eval: Evaluator, rt: Runtime)
    ensures NoId(InitReply) && NoId(ParseErrorReply)
    ensures HandleRequest(request, eval, rt).Ok? ==> NoId(HandleRequest(request, eval, rt).value)
  {
    var r := HandleRequest(request, eval, rt);
    if r.Ok? && request.JObj? {
      var params := if "params" in request.fields then request.fields["params"] else JObj(map[]);
      if params.JObj? && "name" in params.fields {
        var name := params.fields["name"];
        var arguments := if "arguments" in params.fields then params.fields["arguments"]
                         else JObj(map[]);
        CallToolOutcomes(name, arguments, eval, rt);
      }
    }
  }

  // ---------------------------------------------------------------------------
  // The run loop

  /** What the request loop of run() produces for the input lines: one reply per
      non-blank line, until handling a request raises (the exception ends run). */
  datatype Served = Served(replies: seq<Json>, crash: Option<Exn>)

  /** Answering one line, reduced to the reply it produces or the exception that
      escapes. */
  type Responder = string -> Result<Json, Exn>

  /** The reply to one non-blank line: -32700 when the line does not decode. */
  function Reply(line: string, decode: string -> Option<Json>, eval: Evaluator, rt: Runtime)
    : Result<Json, Exn>
  {
    match decode(line)
    case None => Ok(ParseErrorReply)
    case Some(request) => HandleRequest(request, eval, rt)
  }

  /** The responder of this server. */
  function Server(decode: string -> Option<Json>, eval: Evaluator, rt: Runtime): Responder
  {
    line => Reply(line, decode, eval, rt)
  }

  /** The request loop over the lines still to be read, answering each with `respond`. */
  function Serve(lines: seq<string>, respond: Responder): Served
  {
    if |lines| == 0 then Served([], None)
    else if Strip(lines[0]) == [] then Serve(lines[1..], respond)
    else match respond(lines[0])
      case Err(e) => Served([], Some(e))
      case Ok(reply) =>
        var rest := Serve(lines[1..], respond);
        Served([reply] + rest.replies, rest.crash)
  }

  /** What print(json.dumps(x)) writes for each reply in turn. */
  function Printed(encode: Json -> string, replies: seq<Json>): string
  {
    NewlineFramed(Encoded(encode, replies))
  }

  function Encoded(encode: Json -> string, replies: seq<Json>): (r: seq<string>)
    ensures |r| == |replies| && forall k :: 0 <= k < |r| ==> r[k] == encode(replies[k])
  {
    seq(|replies|, k requires 0 <= k < |replies| => encode(replies[k]))
  }

  /** Encoding a run of replies is encoding each part in turn. */
  lemma EncodedAppend(encode: Json -> string, a: seq<Json>, b: seq<Json>)
    ensures Encoded(encode, a + b) == Encoded(encode, a) + Encoded(encode, b)
  {
    var ab := Encoded(encode, a + b);
    var both := Encoded(encode, a) + Encoded(encode, b);
    forall k | 0 <= k < |ab| ensures ab[k] == both[k] {
      if k < |a| {
        assert (a + b)[k] == a[k];
      } else {
        assert (a + b)[k] == b[k - |a|];
      }
    }
  }

  /** Printing replies one after another prints the first run, then the second. */
  lemma PrintedAppend(encode: Json -> string, a: seq<Json>, b: seq<Json>)
    ensures Printed(encode, a + b) == Printed(encode, a) + Printed(encode, b)
  {
    EncodedAppend(encode, a, b);
    NewlineFramedAppend(Encoded(encode, a), Encoded(encode, b));
  }

  /** run(): the initialization result first, then the replies of the request loop,
      which reads lines until readline() returns "". */
  method Run(input: TextStream, out: OutStream, decode: string -> Option<Json>,
             encode: Json -> string, eval: Evaluator, rt: Runtime)
    returns (crash: Option<Exn>)
    requires input.Valid()
    modifies input, out
    ensures input.Valid()
    ensures var served := Serve(Lines(input.data, old(input.pos)), Server(decode, eval, rt));
      && out.written == old(out.written) + Printed(encode, [InitReply] + served.replies)
      && crash == served.crash
    ensures crash.None? ==> input.pos == |input.data|
  {
    ghost var base := out.written;
    assert out.written == base + Printed(encode, []);
    SendOne(out, encode, base, [], InitReply);
    assert [] + [InitReply] == [InitReply];
    crash := RequestLoop(input, out, encode, Server(decode, eval, rt), base, [InitReply]);
  }

  /** The request loop of run(): each non-blank line read is answered, and its reply
      printed after the `printed` ones, until the input ends or a request raises. */
  method RequestLoop(input: TextStream, out: OutStream, encode: Json -> string,
                     respond: Responder, ghost base: string, ghost printed: seq<Json>)
    returns (crash: Option<Exn>)
    requires input.Valid() && out.written == base + Printed(encode, printed)
    modifies input, out
    ensures input.Valid()
    ensures var served := Serve(Lines(input.data, old(input.pos)), respond);
      && out.written == base + Printed(encode, printed + served.replies)
      && crash == served.crash
    ensures crash.None? ==> input.pos == |input.data|
  {
    ghost var answered: seq<Json> := [];
    assert printed + answered == printed;
    while true
      invariant input.Valid() && old(input.pos) <= input.pos
      invariant out.written == base + Printed(encode, printed + answered)
      invariant var rest := Serve(Lines(input.data, input.pos), respond);
        Serve(Lines(input.data, old(input.pos)), respond)
          == Served(answered + rest.replies, rest.crash)
      decreases |input.data| - input.pos
    {
      ghost var before := input.pos;
      var line := input.ReadLine();
      if line == [] {
        assert Lines(input.data, input.pos) == [];
        assert answered + [] == answered;
        return None;
      }
      ghost var later := Lines(input.data, input.pos);
      assert Lines(input.data, before) == [line] + later;
      ServeCons(line, later, respond);
      if Strip(line) != [] {
        var reply := respond(line);
        if reply.Err? {
          assert answered + [] == answered;
          return Some(reply.error);
        }
        ghost var rest := Serve(later, respond);
        SendOne(out, encode, base, printed + answered, reply.value);
        Regroup(printed, answered, [reply.value]);
        Regroup(answered, [reply.value], rest.replies);
        answered := answered + [reply.value];
      }
    }
  }

  /** One step of the request loop: a blank line is skipped, a request that raises
      ends it, a reply goes before the replies to the lines after. */
  lemma ServeCons(line: string, later: seq<string>, respond: Responder)
    ensures Strip(line) == [] ==> Serve([line] + later, respond) == Serve(later, respond)
    ensures Strip(line) != [] && respond(line).Err? ==>
      Serve([line] + later, respond) == Served([], Some(respond(line).error))
    ensures Strip(line) != [] && respond(line).Ok? ==>
      var rest := Serve(later, respond);
      Serve([line] + later, respond) == Served([respond(line).value] + rest.replies, rest.crash)
  {
    assert ([line] + later)[1..] == later;
  }

  /** print(json.dumps(reply)): the framed reply goes after what was printed before. */
  method SendOne(out: OutStream, encode: Json -> string, ghost base: string,
                 ghost sent: seq<Json>, reply: Json)
    requires out.written == base + Printed(encode, sent)
    modifies out
    ensures out.written == base + Printed(encode, sent + [reply])
  {
    out.Write(encode(reply) + "\n");
    assert Encoded(encode, sent + [reply]) == Encoded(encode, sent) + [encode(reply)];
    NewlineFramedSnoc(Encoded(encode, sent), encode(reply));
  }

  // ---------------------------------------------------------------------------
  // Properties of the loop

  /** The non-blank lines, in order. */
  function NonBlank(lines: seq<string>): (r: seq<string>)
    ensures forall k :: 0 <= k < |r| ==> Strip(r[k]) != []
    ensures |r| <= |lines|
  {
    if |lines| == 0 then []
    else if Strip(lines[0]) == [] then NonBlank(lines[1..])
    else [lines[0]] + NonBlank(lines[1..])
  }

  /** No line among `lines` makes `respond` raise. */
  predicate AllAnswered(lines: seq<string>, respond: Responder)
  {
    forall k :: 0 <= k < |lines| ==> respond(lines[k]).Ok?
  }

  /** `replies` are the replies to `lines`, one each, in order. */
  predicate AnswersTo(replies: seq<Json>, lines: seq<string>, respond: Responder)
  {
    && |replies| == |lines|
    && forall k :: 0 <= k < |lines| ==> respond(lines[k]) == Ok(replies[k])
  }

  /** Blank lines produce nothing and every other line exactly one reply, in order; the
      loop runs to the end exactly when no request raises. */
  lemma {:induction false} ServeReplies(lines: seq<string>, respond: Responder)
    ensures Serve(lines, respond).crash.None? <==> AllAnswered(NonBlank(lines), respond)
    ensures Serve(lines, respond).crash.None? ==>
      AnswersTo(Serve(lines, respond).replies, NonBlank(lines), respond)
  {
    if |lines| > 0 {
      ServeReplies(lines[1..], respond);
      var served, rest := Serve(lines, respond), Serve(lines[1..], respond);
      var nb, nb' := NonBlank(lines), NonBlank(lines[1..]);
      if Strip(lines[0]) != [] {
        assert nb == [lines[0]] + nb';
        var first := respond(lines[0]);
        if first.Err? {
          assert !respond(nb[0]).Ok?;
        } else {
          assert served == Served([first.value] + rest.replies, rest.crash);
          ServeStep(nb', lines[0], respond, first.value, rest);
        }
      }
    }
  }

  /** The step of ServeReplies past a non-blank line that is answered. */
  lemma ServeStep(nb: seq<string>, line: string, respond: Responder, reply: Json, rest: Served)
    requires respond(line) == Ok(reply)
    requires rest.crash.None? <==> AllAnswered(nb, respond)
    requires rest.crash.None? ==> AnswersTo(rest.replies, nb, respond)
    ensures rest.crash.None? <==> AllAnswered([line] + nb, respond)
    ensures rest.crash.None? ==> AnswersTo([reply] + rest.replies, [line] + nb, respond)
  {
    var nb1 := [line] + nb;
    assert forall k :: 0 < k < |nb1| ==> nb1[k] == nb[k - 1];
    if !AllAnswered(nb, respond) {
      var k :| 0 <= k < |nb| && !respond(nb[k]).Ok?;
      assert nb1[k + 1] == nb[k];
    }
  }

  /** A line that does not decode is answered with -32700 and the loop goes on. */
  lemma UndecodableAnswered(line: string, lines: seq<string>, decode: string -> Option<Json>,
                            eval: Evaluator, rt: Runtime)
    requires Strip(line) != [] && decode(line).None?
    ensures var rest := Serve(lines, Server(decode, eval, rt));
      Serve([line] + lines, Server(decode, eval, rt))
        == Served([ParseErrorReply] + rest.replies, rest.crash)
  {
    assert ([line] + lines)[1..] == lines;
  }

  /** A reply no line is answered with never appears among the loop's replies. */
  lemma {:induction false} NeverServed(lines: seq<string>, respond: Responder, x: Json)
    requires forall line :: respond(line) != Ok(x)
    ensures x !in Serve(lines, respond).replies
    decreases |lines|
  {
    if |lines| > 0 {
      NeverServed(lines[1..], respond, x);
    }
  }

  /** The initialization result is printed once: no reply of the loop equals it. */
  lemma InitPrintedOnce(lines: seq<string>, decode: string -> Option<Json>,
                        eval: Evaluator, rt: Runtime)
    ensures InitReply !in Serve(lines, Server(decode, eval, rt)).replies
  {
    var respond := Server(decode, eval, rt);
    forall line ensures respond(line) != Ok(InitReply) {
      if decode(line).Some? {
        NotInit(decode(line).value, eval, rt);
      } else {
        assert "result" !in ParseErrorReply.fields && "result" in InitReply.fields;
      }
    }
    NeverServed(lines, respond, InitReply);
  }

  /** No handler result is the initialization result. */
  lemma NotInit(request: Json, eval: Evaluator, rt: Runtime)
    ensures HandleRequest(request, eval, rt) != Ok(InitReply)
  {
    assert "protocolVersion" in InitReply.fields["result"].fields;
    if request.JObj? {
      var params := if "params" in request.fields then request.fields["params"] else JObj(map[]);
      if params.JObj? && "name" in params.fields {
        var name := params.fields["name"];
        var arguments := if "arguments" in params.fields then params.fields["arguments"]
                         else JObj(map[]);
        CallToolOutcomes(name, arguments, eval, rt);
      }
    }
  }
}
