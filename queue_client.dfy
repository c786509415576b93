/** The queue-polling client of the line-delimited servers. A reader thread turns each
    line the server prints into a stripped string on an output queue, a writer thread
    writes each message put on an input queue followed by '\n'. The client polls the
    output queue a bounded number of times per request, takes the first non-blank line
    that decodes as the reply, whatever its id, and keeps a registry of the servers it
    connected to. */
module QueueClient {
  import opened Common
  import opened JsonValues
  import opened Streams

  // ---------------------------------------------------------------------------
  // Polling the output queue

  /** One `output_queue.get(timeout=0.1)`: nothing within the timeout (queue.Empty), or
      the next line the reader thread put, already stripped. */
  datatype Poll = Empty | Line(text: string)

  /** `if response_line:` holds and json.loads succeeds. */
  predicate Decodable(p: Poll, decode: string -> Option<Json>)
  {
    p.Line? && p.text != [] && decode(p.text).Some?
  }

  /** What a polling loop ends with: the reply it took, if any, and the outcomes left
      for later polls. */
  datatype Polled = Polled(reply: Option<Json>, rest: seq<Poll>)

  /** The outcome of one get; once the given outcomes are used up every get times out. */
  function Next(pending: seq<Poll>): Poll
  {
    if |pending| == 0 then Empty else pending[0]
  }

  function Later(pending: seq<Poll>): seq<Poll>
  {
    if |pending| == 0 then [] else pending[1..]
  }

  /** `for _ in range(budget)`: get, skip a blank line, skip (and report) a line that
      does not decode, stop at the first one that does. */
  function PollFor(pending: seq<Poll>, budget: nat, decode: string -> Option<Json>): Polled
    decreases budget
  {
    if budget == 0 then Polled(None, pending)
    else if Decodable(Next(pending), decode) then
      Polled(decode(Next(pending).text), Later(pending))
    else PollFor(Later(pending), budget - 1, decode)
  }

  /** The polling loop itself. */
  method PollQueue(pending: seq<Poll>, budget: nat, decode: string -> Option<Json>)
    returns (reply: Option<Json>, rest: seq<Poll>)
    ensures Polled(reply, rest) == PollFor(pending, budget, decode)
  {
    rest := pending;
    var i := 0;
    while i < budget
      invariant i <= budget
      invariant PollFor(pending, budget, decode) == PollFor(rest, budget - i, decode)
    {
      var response := Next(rest);
      rest := Later(rest);
      if response.Line? && response.text != [] {
        var decoded := decode(response.text);
        if decoded.Some? {
          return decoded, rest;
        }
      }
      i := i + 1;
    }
    reply := None;
  }

  /** None of the first n outcomes is a decodable line. */
  predicate Silent(pending: seq<Poll>, n: nat, decode: string -> Option<Json>)
  {
    forall k :: 0 <= k < n && k < |pending| ==> !Decodable(pending[k], decode)
  }

  function Min(a: nat, b: nat): nat
  {
    if a <= b then a else b
  }

  /** A polling loop gets at most `budget` times and leaves the outcomes after the last
      one it took for the next loop. */
  lemma {:induction false} PollConsumes(pending: seq<Poll>, budget: nat,
                                        decode: string -> Option<Json>)
    ensures var r := PollFor(pending, budget, decode);
      |pending| - |r.rest| <= budget && |r.rest| <= |pending|
      && r.rest == pending[|pending| - |r.rest|..]
    decreases budget
  {
    if budget > 0 && !Decodable(Next(pending), decode) {
      PollConsumes(Later(pending), budget - 1, decode);
      if |pending| > 0 {
        var r := PollFor(pending[1..], budget - 1, decode);
        assert pending[1..][|pending[1..]| - |r.rest|..] == pending[|pending| - |r.rest|..];
      }
    }
  }

  /** A loop times out exactly when none of the outcomes within its budget is a
      decodable line, and then it has used all of them. */
  lemma {:induction false} PollTimesOut(pending: seq<Poll>, budget: nat,
                                        decode: string -> Option<Json>)
    ensures PollFor(pending, budget, decode).reply.None? <==> Silent(pending, budget, decode)
    ensures Silent(pending, budget, decode) ==>
      PollFor(pending, budget, decode).rest == pending[Min(budget, |pending|)..]
    decreases budget
  {
    if budget > 0 {
      PollTimesOut(Later(pending), budget - 1, decode);
    }
    if budget > 0 && |pending| > 0 {
      if Silent(pending, budget, decode) {
        assert !Decodable(pending[0], decode);
        assert Silent(pending[1..], budget - 1, decode) by {
          forall k | 0 <= k < budget - 1 && k < |pending[1..]|
            ensures !Decodable(pending[1..][k], decode)
          {
            assert pending[1..][k] == pending[k + 1];
          }
        }
        assert pending[1..][Min(budget - 1, |pending| - 1)..] == pending[Min(budget, |pending|)..];
      } else if !Decodable(pending[0], decode) {
        var k :| 0 <= k < budget && k < |pending| && Decodable(pending[k], decode);
        assert pending[1..][k - 1] == pending[k];
      }
    }
  }

  /** The first decodable line within the budget is the reply, whatever it says, and the
      outcomes after it are left in the queue. */
  lemma {:induction false} PollTakesFirst(pending: seq<Poll>, budget: nat,
                                          decode: string -> Option<Json>, k: nat)
    requires k < budget && k < |pending| && Decodable(pending[k], decode)
    requires Silent(pending, k, decode)
    ensures PollFor(pending, budget, decode) == Polled(decode(pending[k].text), pending[k + 1..])
    decreases k
  {
    if k > 0 {
      assert !Decodable(pending[0], decode);
      assert Silent(pending[1..], k - 1, decode) by {
        forall j | 0 <= j < k - 1 && j < |pending[1..]|
          ensures !Decodable(pending[1..][j], decode)
        {
          assert pending[1..][j] == pending[j + 1];
        }
      }
      PollTakesFirst(pending[1..], budget - 1, decode, k - 1);
      assert pending[1..][k..] == pending[k + 1..];
    }
  }

  /** What the reader thread puts on the output queue for what the server prints: each
      line of the pipe's translated text, stripped, until readline() returns "". */
  function ReaderPuts(stdout: string): (r: seq<string>)
    ensures |r| == |Lines(Translated(stdout), 0)|
    ensures forall k :: 0 <= k < |r| ==> r[k] == Strip(Lines(Translated(stdout), 0)[k])
  {
    var lines := Lines(Translated(stdout), 0);
    seq(|lines|, k requires 0 <= k < |lines| => Strip(lines[k]))
  }

  predicate NoLineBreaks(ms: seq<string>)
  {
    forall k :: 0 <= k < |ms| ==> '\n' !in ms[k] && '\r' !in ms[k]
  }

  /** Output that reads as the lines ms, each ended by '\n', is queued as those lines,
      stripped, in order. */
  lemma ReaderPutsOf(stdout: string, ms: seq<string>)
    requires NoLineBreaks(ms) && Translated(stdout) == NewlineFramed(ms)
    ensures |ReaderPuts(stdout)| == |ms|
    ensures forall k :: 0 <= k < |ms| ==> ReaderPuts(stdout)[k] == Strip(ms[k])
  {
    NewlineFramedLines(ms);
    forall k | 0 <= k < |ms| ensures ReaderPuts(stdout)[k] == Strip(ms[k]) {
      StripNewline(ms[k]);
    }
  }

  /** A server that prints lines without '\r' has each of them queued, stripped, in
      order. */
  lemma ReaderPutsLines(ms: seq<string>)
    requires NoLineBreaks(ms)
    ensures |ReaderPuts(NewlineFramed(ms))| == |ms|
    ensures forall k :: 0 <= k < |ms| ==> ReaderPuts(NewlineFramed(ms))[k] == Strip(ms[k])
  {
    FramedHasNoCr(ms);
    TranslatedPlain(NewlineFramed(ms));
    ReaderPutsOf(NewlineFramed(ms), ms);
  }

  lemma {:induction false} FramedHasNoCr(ms: seq<string>)
    requires NoLineBreaks(ms)
    ensures '\r' !in NewlineFramed(ms)
  {
    if |ms| > 0 {
      assert NoLineBreaks(ms[1..]) by {
        forall k | 0 <= k < |ms[1..]| ensures '\n' !in ms[1..][k] && '\r' !in ms[1..][k] {
          assert ms[1..][k] == ms[k + 1];
        }
      }
      FramedHasNoCr(ms[1..]);
      assert '\r' !in ms[0];
    }
  }

  /** The reader's readline() also ends a line at a lone '\r'. */
  lemma ReaderSplitsAtCr()
    ensures ReaderPuts("a\rb\n") == ["a", "b"]
  {
    var raw := "a\rb\n";
    CrTranslated(raw);
    assert NoLineBreaks(["a", "b"]);
    ReaderPutsOf(raw, ["a", "b"]);
    KeptWhole();
    var r := ReaderPuts(raw);
    assert |r| == 2 && r[0] == "a" && r[1] == "b";
  }

  /** The reader sees "a\rb\n" as "a\nb\n". */
  lemma CrTranslated(raw: string)
    requires raw == "a\rb\n"
    ensures Translated(raw) == NewlineFramed(["a", "b"])
  {
    assert raw == ['a'] + ("\r" + "b\n");
    TranslatedChar('a', "\rb\n");
    TranslatedCr("b\n");
    TranslatedPlain("b\n");
  }

  /** Stripping leaves "a" and "b" as they are. */
  lemma KeptWhole()
    ensures Strip("a") == "a" && Strip("b") == "b"
  {
    StripTrimmed("a");
    StripTrimmed("b");
  }

  /** The lines among the outcomes, in the order they arrived. */
  function Arrivals(pending: seq<Poll>): seq<string>
  {
    if |pending| == 0 then []
    else if pending[0].Empty? then Arrivals(pending[1..])
    else [pending[0].text] + Arrivals(pending[1..])
  }

  /** When every line that can arrive decodes, and the lines that did arrive are the first
      of them, a polling loop either times out or takes the first of those lines, and
      what it leaves holds the lines after it. */
  lemma {:induction false} PollArrivals(pending: seq<Poll>, budget: nat,
                                        decode: string -> Option<Json>, texts: seq<string>)
    requires Arrivals(pending) <= texts
    requires forall k :: 0 <= k < |texts| ==> texts[k] != [] && decode(texts[k]).Some?
    ensures var r := PollFor(pending, budget, decode);
      r.reply.None? || (|texts| > 0 && r.reply == decode(texts[0]) && Arrivals(r.rest) <= texts[1..])
    decreases budget
  {
    if budget > 0 {
      if Next(pending).Empty? {
        PollArrivals(Later(pending), budget - 1, decode, texts);
      } else {
        assert Arrivals(pending) == [pending[0].text] + Arrivals(pending[1..]);
        assert texts[0] == pending[0].text;
        assert Arrivals(pending[1..]) <= texts[1..];
      }
    }
  }

  // ---------------------------------------------------------------------------
  // Requests and replies

  const InitPolls := 50
  const ListPolls := 50
  const CallPolls := 100

  const NoReplyText := "응답이 없습니다."
  const ToolErrorPrefix := "도구 실행 오류: "
  const UnknownFormatText := "알 수 없는 응답 형식입니다."
  const TimeoutText := "도구 호출 타임아웃"
  /** What call_tool returns when an exception escapes its loop, as the literal stands in
      the program. */
  const CallFailedText := "도구 호출 중 오#!/usr/bin/env python3"

  /** The `initialize` request: id 1. */
  const InitRequest: Json :=
    JObj(map[
      "jsonrpc" := JStr("2.0"),
      "id" := JInt(1),
      "method" := JStr("initialize"),
      "params" := JObj(map[
        "protocolVersion" := JStr("2024-11-05"),
        "capabilities" := JObj(map["tools" := JObj(map[])]),
        "clientInfo" := JObj(map["name" := JStr("gemini-mcp-client"),
                                 "version" := JStr("1.0.0")])])])

  /** The `tools/list` request: id 2. */
  const ToolsRequest: Json :=
    JObj(map["jsonrpc" := JStr("2.0"), "id" := JInt(2), "method" := JStr("tools/list"),
             "params" := JObj(map[])])

  /** The `tools/call` request: id 3, every time. */
  function ToolRequest(toolName: Json, arguments: Json): (r: Json)
    ensures r.JObj? && "id" in r.fields && r.fields["id"] == JInt(3)
    ensures "method" in r.fields && r.fields["method"] == JStr("tools/call")
  {
    JObj(map["jsonrpc" := JStr("2.0"), "id" := JInt(3), "method" := JStr("tools/call"),
             "params" := JObj(map["name" := toolName, "arguments" := arguments])])
  }

  /** What call_tool makes of the reply it took; Err when evaluating it raises. */
  function ToolAnswer(response: Json, rt: Runtime): Result<Json, Exn>
  {
    match In("result", response)
    case Err(e) => Err(e)
    case Ok(hasResult) =>
      if hasResult then
        match Field(response, "result")
        case Err(e) => Err(e)
        case Ok(result) =>
          match Get(result, "content", JArr([]))
          case Err(e) => Err(e)
          case Ok(content) =>
            if !Truthy(content) then Ok(JStr(UnknownFormatText))
            else match Len(content)
              case Err(e) => Err(e)
              case Ok(n) =>
                if n == 0 then Ok(JStr(UnknownFormatText))
                else match Subscript(content, JInt(0))
                  case Err(e) => Err(e)
                  case Ok(first) => Get(first, "text", JStr(NoReplyText))
      else
        match In("error", response)
        case Err(e) => Err(e)
        case Ok(hasError) =>
          if !hasError then Ok(JStr(UnknownFormatText))
          else match Field(response, "error")
            case Err(e) => Err(e)
            case Ok(error) =>
              match Field(error, "message")
              case Err(e) => Err(e)
              case Ok(message) => Ok(JStr(ToolErrorPrefix + Str(rt, message)))
  }

  /** The value call_tool returns once its loop ends. */
  function CallAnswer(reply: Option<Json>, rt: Runtime): Json
  {
    match reply
    case None => JStr(TimeoutText)
    case Some(response) =>
      match ToolAnswer(response, rt)
      case Err(_) => JStr(CallFailedText)
      case Ok(answer) => answer
  }

  /** A reply is read as follows: a `result` whose `content` is a non-empty list answers
      with its first item's `text` (default "응답이 없습니다."); a `result` with empty or
      missing content, and a reply with neither `result` nor `error`, are of unknown
      format; an `error` answers with its message. */
  lemma ToolAnswerCases(fields: map<string, Json>, rt: Runtime)
    ensures "result" in fields && fields["result"].JObj? ==>
      var result := fields["result"].fields;
      var content := if "content" in result then result["content"] else JArr([]);
      && (content == JArr([]) ==> ToolAnswer(JObj(fields), rt) == Ok(JStr(UnknownFormatText)))
      && (content.JArr? && |content.items| > 0 && content.items[0].JObj? ==>
            var first := content.items[0].fields;
            ToolAnswer(JObj(fields), rt)
              == Ok(if "text" in first then first["text"] else JStr(NoReplyText)))
    ensures "result" !in fields && "error" in fields && fields["error"].JObj?
            && "message" in fields["error"].fields ==>
      ToolAnswer(JObj(fields), rt)
        == Ok(JStr(ToolErrorPrefix + Str(rt, fields["error"].fields["message"])))
    ensures "result" !in fields && "error" !in fields ==>
      ToolAnswer(JObj(fields), rt) == Ok(JStr(UnknownFormatText))
  {
  }

  /** An exception while reading the reply, a non-dict `result` say, ends the call with
      the fixed failure text. */
  lemma CallAnswerFails(response: Json, rt: Runtime)
    requires ToolAnswer(response, rt).Err?
    ensures CallAnswer(Some(response), rt) == JStr(CallFailedText)
  {
  }

  // ---------------------------------------------------------------------------
  // The registry

  type ProcId = nat

  /** The MCPServer record: the name it is registered under, its process, the `tools` of
      its `tools/list` reply as they came, every message put on its input queue, and the
      poll outcomes its output queue has in store. (The error queue is never read.) */
  datatype MCPServer = MCPServer(name: string, process: ProcId, tools: Json,
                                 sent: seq<string>, pending: seq<Poll>)

  /** os.path.basename on a POSIX path: what follows the last '/', all of it when there
      is none. */
  function Basename(path: string): (r: string)
    ensures '/' !in r && |r| <= |path|
    ensures forall k :: 0 <= k < |r| ==> r[k] == path[|path| - |r| + k]
    ensures |r| < |path| ==> path[|path| - |r| - 1] == '/'
  {
    if |path| == 0 || path[|path| - 1] == '/' then []
    else Basename(path[..|path| - 1]) + [path[|path| - 1]]
  }

  /** A dict's keys in insertion order after `d[name] = v`: a new key goes last, an
      existing one keeps its place. */
  function Enrolled(order: seq<string>, name: string): seq<string>
  {
    if name in order then order else order + [name]
  }

  predicate Distinct(names: seq<string>)
  {
    forall i, j :: 0 <= i < j < |names| ==> names[i] != names[j]
  }

  /** The second reply of the handshake: evaluating it raised, it has no `result`, or its
      `result` holds these tools (default []). */
  datatype Listing = Aborted(error: Exn) | Rejected | Listed(tools: Json)

  function ReadListing(response: Json): Listing
  {
    match In("result", response)
    case Err(e) => Aborted(e)
    case Ok(hasResult) =>
      if !hasResult then Rejected
      else match Field(response, "result")
        case Err(e) => Aborted(e)
        case Ok(result) =>
          match Get(result, "tools", JArr([]))
          case Err(e) => Aborted(e)
          case Ok(tools) => Listed(tools)
  }

  /** The elements `for tool in tools` visits, as far as a loop that touches each one
      needs to know: a list's items, a dict's keys and a string's characters (both
      strings); other values cannot be iterated. */
  function Elements(j: Json): Result<seq<Json>, Exn>
  {
    match j
    case JArr(items) => Ok(items)
    case JObj(fields) => Ok(if fields == map[] then [] else [JStr("key")])
    case JStr(s) => Ok(if s == [] then [] else [JStr([s[0]])])
    case _ => Err(NotIterable(TypeName(j)))
  }

  /** `[tool['name'] for tool in tools]`, as connect_server prints it. */
  function ToolNames(tools: Json): Result<seq<Json>, Exn>
  {
    match Elements(tools)
    case Err(e) => Err(e)
    case Ok(items) => NamesOf(items)
  }

  function NamesOf(items: seq<Json>): Result<seq<Json>, Exn>
  {
    if |items| == 0 then Ok([])
    else match Field(items[0], "name")
      case Err(e) => Err(e)
      case Ok(n) =>
        match NamesOf(items[1..])
        case Err(e) => Err(e)
        case Ok(ns) => Ok([n] + ns)
  }

  /** What connect_server does: whether it returns True, the record it registered (it
      may register one and still return False, when printing the tool names raises),
      and the processes it terminated. */
  datatype Connection = Connection(ok: bool, registered: Option<MCPServer>,
                                   terminated: seq<ProcId>)

  /** `spawned` is the process Popen started, None when Popen raised; `output` the poll
      outcomes of the new output queue. */
  function Connect(serverPath: string, spawned: Option<ProcId>, output: seq<Poll>,
                   encode: Json -> string, decode: string -> Option<Json>): Connection
  {
    match spawned
    case None => Connection(false, None, [])
    case Some(process) =>
      var init := PollFor(output, InitPolls, decode);
      if init.reply.None? then Connection(false, None, [process])
      else
        var listed := PollFor(init.rest, ListPolls, decode);
        if listed.reply.None? then Connection(false, None, [process])
        else match ReadListing(listed.reply.value)
          case Aborted(_) => Connection(false, None, [])
          case Rejected => Connection(false, None, [process])
          case Listed(tools) =>
            var server := MCPServer(Basename(serverPath), process, tools,
                                    [encode(InitRequest), encode(ToolsRequest)], listed.rest);
            Connection(ToolNames(tools).Ok?, Some(server), [])
  }

  /** The handshake, stage by stage: no decodable line within 50 polls, or none for the
      `tools/list` reply within 50 more, terminates the process; a decodable reply
      without `result` terminates it at once; registration happens exactly when that
      reply has a `result`, under the script's basename, with the reply's tools; True is
      returned exactly when the server was registered and its tool names could be
      printed. */
  lemma ConnectOutcomes(serverPath: string, process: ProcId, output: seq<Poll>,
                        encode: Json -> string, decode: string -> Option<Json>)
    ensures var c := Connect(serverPath, Some(process), output, encode, decode);
      var init := PollFor(output, InitPolls, decode);
      var listed := PollFor(init.rest, ListPolls, decode);
      && (Silent(output, InitPolls, decode) ==> c == Connection(false, None, [process]))
      && (!Silent(output, InitPolls, decode) && Silent(init.rest, ListPolls, decode) ==>
            c == Connection(false, None, [process]))
      && (c.registered.Some? <==>
            init.reply.Some? && listed.reply.Some? && ReadListing(listed.reply.value).Listed?)
      && (c.registered.Some? ==>
            && c.registered.value.name == Basename(serverPath)
            && c.registered.value.process == process
            && c.registered.value.tools == ReadListing(listed.reply.value).tools
            && c.registered.value.pending == listed.rest
            && c.terminated == []
            && (c.ok <==> ToolNames(c.registered.value.tools).Ok?))
      && (c.ok ==> c.registered.Some?)
  {
    PollTimesOut(output, InitPolls, decode);
    PollTimesOut(PollFor(output, InitPolls, decode).rest, ListPolls, decode);
  }

  /** A decodable `tools/list` reply that is a dict without `result` ends the handshake
      at once: the process is terminated and nothing is registered. */
  lemma ConnectRejects(serverPath: string, process: ProcId, output: seq<Poll>,
                       encode: Json -> string, decode: string -> Option<Json>)
    requires var init := PollFor(output, InitPolls, decode);
      var listed := PollFor(init.rest, ListPolls, decode);
      init.reply.Some? && listed.reply.Some? && listed.reply.value.JObj?
      && "result" !in listed.reply.value.fields
    ensures Connect(serverPath, Some(process), output, encode, decode)
            == Connection(false, None, [process])
  {
  }

  /** Missing `tools` are the empty list, which prints and so connects. */
  lemma ToolsDefault(fields: map<string, Json>)
    requires "result" in fields && fields["result"].JObj? && "tools" !in fields["result"].fields
    ensures ReadListing(JObj(fields)) == Listed(JArr([]))
    ensures ToolNames(JArr([])) == Ok([])
  {
  }

  /** str(server_name) in the not-found message. */
  function NotFoundText(rt: Runtime, serverName: Json): string
  {
    "서버 '" + Str(rt, serverName) + "'를 찾을 수 없습니다."
  }

  /** What call_tool returns (Err when an exception escapes it) and the registry after. */
  datatype Calling = Calling(answer: Result<Json, Exn>, servers: map<string, MCPServer>)

  /** call_tool: an unhashable server name raises before anything else; an unknown one is
      answered with the not-found message; otherwise one `tools/call` request is put on
      the server's input queue and at most 100 polls of its output queue decide. */
  function CallOutcome(servers: map<string, MCPServer>, serverName: Json, toolName: Json,
                       arguments: Json, encode: Json -> string,
                       decode: string -> Option<Json>, rt: Runtime): Calling
  {
    if !Hashable(serverName) then Calling(Err(Unhashable(TypeName(serverName))), servers)
    else if !serverName.JStr? || serverName.s !in servers then
      Calling(Ok(JStr(NotFoundText(rt, serverName))), servers)
    else
      var server := servers[serverName.s];
      var polled := PollFor(server.pending, CallPolls, decode);
      var server' := server.(sent := server.sent + [encode(ToolRequest(toolName, arguments))],
                             pending := polled.rest);
      Calling(Ok(CallAnswer(polled.reply, rt)), servers[serverName.s := server'])
  }

  /** On an unregistered server nothing is sent and the registry is unchanged; on a
      registered one exactly one request, with id 3, goes on its input queue, and no
      other server is touched. */
  lemma CallToolSends(servers: map<string, MCPServer>, serverName: Json, toolName: Json,
                      arguments: Json, encode: Json -> string,
                      decode: string -> Option<Json>, rt: Runtime)
    ensures var c := CallOutcome(servers, serverName, toolName, arguments, encode, decode, rt);
      && (Hashable(serverName) && !(serverName.JStr? && serverName.s in servers) ==>
            c == Calling(Ok(JStr(NotFoundText(rt, serverName))), servers))
      && (serverName.JStr? && serverName.s in servers ==>
            var request := ToolRequest(toolName, arguments);
            && c.servers.Keys == servers.Keys
            && c.servers[serverName.s].sent == servers[serverName.s].sent + [encode(request)]
            && request.fields["id"] == JInt(3)
            && (forall n :: n in servers && n != serverName.s ==> c.servers[n] == servers[n]))
  {
  }

  /** When none of the next 100 outcomes is a decodable line, call_tool times out; when
      one is, the first of them decides the answer. */
  lemma CallToolPolls(servers: map<string, MCPServer>, name: string, toolName: Json,
                      arguments: Json, encode: Json -> string,
                      decode: string -> Option<Json>, rt: Runtime, k: nat)
    requires name in servers
    ensures var pending := servers[name].pending;
      var c := CallOutcome(servers, JStr(name), toolName, arguments, encode, decode, rt);
      && (Silent(pending, CallPolls, decode) ==> c.answer == Ok(JStr(TimeoutText)))
      && (k < CallPolls && k < |pending| && Decodable(pending[k], decode)
          && Silent(pending, k, decode) ==>
            && c.answer == Ok(CallAnswer(decode(pending[k].text), rt))
            && c.servers[name].pending == pending[k + 1..])
  {
    var pending := servers[name].pending;
    PollTimesOut(pending, CallPolls, decode);
    if k < CallPolls && k < |pending| && Decodable(pending[k], decode)
       && Silent(pending, k, decode) {
      PollTakesFirst(pending, CallPolls, decode, k);
    }
  }

  // ---------------------------------------------------------------------------
  // get_available_tools

  /** `tool.copy()` with `"server"` added, for each tool of one server. */
  function Tagged(items: seq<Json>, name: string): Result<seq<Json>, Exn>
  {
    if |items| == 0 then Ok([])
    else match Tag(items[0], name)
      case Err(e) => Err(e)
      case Ok(h) => Prepend([h], Tagged(items[1..], name))
  }

  /** `tool_info = tool.copy(); tool_info["server"] = name`: a list copies but takes no
      str key, other non-dicts have no `copy`. */
  function Tag(tool: Json, name: string): Result<Json, Exn>
  {
    match tool
    case JObj(fields) => Ok(JObj(fields["server" := JStr(name)]))
    case JArr(_) => Err(BadIndexType("list", "str"))
    case _ => Err(NoAttribute(TypeName(tool), "copy"))
  }

  /** `before` followed by the entries of `r`, failing as `r` fails. */
  function Prepend(before: seq<Json>, r: Result<seq<Json>, Exn>): Result<seq<Json>, Exn>
  {
    match r
    case Err(e) => Err(e)
    case Ok(after) => Ok(before + after)
  }

  lemma PrependNothing(r: Result<seq<Json>, Exn>)
    ensures Prepend([], r) == r
  {
    if r.Ok? {
      assert [] + r.value == r.value;
    }
  }

  lemma PrependTwice(a: seq<Json>, b: seq<Json>, r: Result<seq<Json>, Exn>)
    ensures Prepend(a, Prepend(b, r)) == Prepend(a + b, r)
  {
    if r.Ok? {
      Regroup(a, b, r.value);
    }
  }

  /** The tools of the server stored under `name`, each tagged with that key. */
  function ServerTools(name: string, server: MCPServer): Result<seq<Json>, Exn>
  {
    match Elements(server.tools)
    case Err(e) => Err(e)
    case Ok(items) => Tagged(items, name)
  }

  /** The flattened catalogue, server by server in registration order. */
  function Catalogue(order: seq<string>, servers: map<string, MCPServer>): Result<seq<Json>, Exn>
    requires forall n :: n in order ==> n in servers
  {
    if |order| == 0 then Ok([])
    else match ServerTools(order[0], servers[order[0]])
      case Err(e) => Err(e)
      case Ok(tools) => Prepend(tools, Catalogue(order[1..], servers))
  }

  /** Tagging keeps every descriptor, in order, with only `server` added. */
  lemma {:induction false} TaggedShape(items: seq<Json>, name: string)
    requires forall k :: 0 <= k < |items| ==> items[k].JObj?
    ensures Tagged(items, name).Ok?
    ensures |Tagged(items, name).value| == |items|
    ensures forall k :: 0 <= k < |items| ==>
      Tagged(items, name).value[k] == JObj(items[k].fields["server" := JStr(name)])
  {
    if |items| > 0 {
      TaggedShape(items[1..], name);
      var t := Tagged(items[1..], name).value;
      assert Tagged(items, name).value == [JObj(items[0].fields["server" := JStr(name)])] + t;
    }
  }

  /** Every server's tools are a list of dicts. */
  predicate WellListed(order: seq<string>, servers: map<string, MCPServer>)
    requires forall n :: n in order ==> n in servers
  {
    forall n :: n in order ==>
      servers[n].tools.JArr? &&
      forall k :: 0 <= k < |servers[n].tools.items| ==> servers[n].tools.items[k].JObj?
  }

  /** The number of tools of the named servers, when every `tools` is a list. */
  function ToolCount(order: seq<string>, servers: map<string, MCPServer>): nat
    requires forall n :: n in order ==> n in servers
  {
    if |order| == 0 then 0
    else
      var first := servers[order[0]];
      (if first.tools.JArr? then |first.tools.items| else 0) + ToolCount(order[1..], servers)
  }

  /** A registry whose tools are lists of dicts yields one entry per tool, the first
      server's tools first, each its stored descriptor with `server` set to the name it is
      registered under. */
  lemma {:induction false} CatalogueShape(order: seq<string>, servers: map<string, MCPServer>)
    requires forall n :: n in order ==> n in servers
    requires WellListed(order, servers)
    ensures Catalogue(order, servers).Ok?
    ensures |Catalogue(order, servers).value| == ToolCount(order, servers)
    ensures |order| > 0 ==>
      var first := servers[order[0]];
      forall k :: 0 <= k < |first.tools.items| ==>
        Catalogue(order, servers).value[k]
          == JObj(first.tools.items[k].fields["server" := JStr(order[0])])
    decreases |order|
  {
    if |order| > 0 {
      var first := servers[order[0]];
      assert first.tools.JArr?;
      assert forall n :: n in order[1..] ==> n in order;
      CatalogueShape(order[1..], servers);
      TaggedShape(first.tools.items, order[0]);
    }
  }

  /** The catalogue of the servers after the first follows that server's entries. */
  lemma CatalogueRest(order: seq<string>, servers: map<string, MCPServer>)
    requires forall n :: n in order ==> n in servers
    requires |order| > 0 && WellListed(order, servers)
    ensures forall n :: n in order[1..] ==> n in order
    ensures Catalogue(order, servers).Ok? && Catalogue(order[1..], servers).Ok?
    ensures var skip := |servers[order[0]].tools.items|;
      skip <= |Catalogue(order, servers).value|
      && Catalogue(order, servers).value[skip..] == Catalogue(order[1..], servers).value
  {
    var first := servers[order[0]];
    WellListedTail(order, servers);
    CatalogueShape(order[1..], servers);
    assert order[0] in order;
    TaggedShape(first.tools.items, order[0]);
    var tagged := Tagged(first.tools.items, order[0]).value;
    assert ServerTools(order[0], first) == Ok(tagged);
    var rest := Catalogue(order[1..], servers).value;
    CatalogueCons(order, servers, tagged, rest);
  }

  lemma WellListedTail(order: seq<string>, servers: map<string, MCPServer>)
    requires forall n :: n in order ==> n in servers
    requires |order| > 0 && WellListed(order, servers)
    ensures forall n :: n in order[1..] ==> n in order
    ensures WellListed(order[1..], servers)
  {
    assert forall n :: n in order[1..] ==> n in order;
  }

  /** The catalogue is the first server's tagged tools, then the others'. */
  lemma CatalogueCons(order: seq<string>, servers: map<string, MCPServer>, tagged: seq<Json>,
                      rest: seq<Json>)
    requires forall n :: n in order ==> n in servers
    requires |order| > 0 && ServerTools(order[0], servers[order[0]]) == Ok(tagged)
    requires forall n :: n in order[1..] ==> n in order
    requires Catalogue(order[1..], servers) == Ok(rest)
    ensures Catalogue(order, servers) == Ok(tagged + rest)
  {
  }

  // ---------------------------------------------------------------------------
  // chat

  /** The model: the text of the response to a prompt, or the exception generating it
      raised. */
  type Model = string -> Result<string, Exn>

  const Marker := "TOOL_CALL:"
  const ChatErrorPrefix := "오류가 발생했습니다: "

  /** One line of the tool list in the system prompt. */
  function Describe(tool: Json, rt: Runtime): Result<string, Exn>
  {
    match Field(tool, "name")
    case Err(e) => Err(e)
    case Ok(name) =>
      match Field(tool, "server")
      case Err(e) => Err(e)
      case Ok(server) =>
        match Field(tool, "description")
        case Err(e) => Err(e)
        case Ok(description) =>
          Ok("- " + Str(rt, name) + " (서버: " + Str(rt, server) + "): " + Str(rt, description))
  }

  function DescribeAll(tools: seq<Json>, rt: Runtime): Result<seq<string>, Exn>
  {
    if |tools| == 0 then Ok([])
    else match Describe(tools[0], rt)
      case Err(e) => Err(e)
      case Ok(line) =>
        match DescribeAll(tools[1..], rt)
        case Err(e) => Err(e)
        case Ok(lines) => Ok([line] + lines)
  }

  const SystemHead := "\n당신은 MCP(Model Context Protocol) 도구를 사용할 수 있는 AI 어시스턴트입니다.\n\n사용 가능한 도구들:\n"
  const SystemTail := "\n\n사용자의 요청을 처리하기 위해 적절한 도구가 필요하다면, 다음 형식으로 도구 호출을 요청하세요:\n\nTOOL_CALL: {\n  \"server\": \"서버명\",\n  \"tool\": \"도구명\",\n  \"arguments\": {인수 딕셔너리}\n}\n\n도구 호출 결과를 받은 후 최종 답변을 제공하세요.\n"
  const UserLabel := "\n\n사용자: "
  const ResultLabel := "\n\n도구 호출 결과:\n서버: "
  const ToolLabel := "\n도구: "
  const AnswerLabel := "\n결과: "
  const FinalTail := "\n\n위 결과를 바탕으로 사용자에게 최종 답변을 제공하세요.\n"

  function SystemPrompt(toolsDescription: string): string
  {
    SystemHead + toolsDescription + SystemTail
  }

  function FullPrompt(system: string, message: string): string
  {
    system + UserLabel + message
  }

  function FinalPrompt(system: string, message: string, serverName: string, toolName: string,
                       toolResult: string): string
  {
    "\n" + system + UserLabel + message + ResultLabel + serverName
    + ToolLabel + toolName + AnswerLabel + toolResult + FinalTail
  }

  /** The text between the marker and the first '}' after it, inclusive; empty when no
      '}' follows (the slice then ends at 0). */
  function CallText(text: string): string
    requires Contains(text, Marker)
  {
    var start := IndexOf(text, Marker, 0);
    var end := IndexOf(text, "}", start) + 1;
    Slice(text, start + 10, end)
  }

  /** What chat hands to json.loads: the call text, stripped. */
  function ToolCallSlice(text: string): string
    requires Contains(text, Marker)
  {
    Strip(CallText(text))
  }

  /** The call text runs from just after the marker up to and including the first '}' at
      or after the marker, and is empty when there is none. */
  lemma ToolCallSliceSpan(text: string)
    requires Contains(text, Marker)
    ensures var start := IndexOf(text, Marker, 0);
      var end := IndexOf(text, "}", start);
      && (end == -1 ==> CallText(text) == [])
      && (end >= 0 ==> start + 10 <= end && text[end] == '}'
                       && CallText(text) == text[start + 10..end + 1]
                       && forall k :: start <= k < end ==> text[k] != '}')
  {
    var start := IndexOf(text, Marker, 0);
    var end := IndexOf(text, "}", start);
    MarkerHasNoBrace(text, start);
    if end >= 0 {
      BraceAt(text, start, end);
    }
  }

  /** The marker holds no '}'. */
  lemma MarkerHasNoBrace(text: string, start: int)
    requires OccursAt(text, Marker, start)
    ensures start + 10 <= |text|
    ensures forall j :: start <= j < start + 10 ==> text[j] != '}'
  {
    assert text[start..start + 10] == Marker;
    forall j | start <= j < start + 10 ensures text[j] != '}' {
      assert text[j] == Marker[j - start];
    }
  }

  /** The first occurrence of "}" from `start` on is the first '}' character there. */
  lemma BraceAt(text: string, start: nat, end: int)
    requires end == IndexOf(text, "}", start) && end >= 0
    ensures end < |text| && text[end] == '}'
    ensures forall k :: start <= k < end ==> text[k] != '}'
  {
    assert text[end..end + 1] == "}";
    assert text[end] == text[end..end + 1][0];
    forall k | start <= k < end ensures text[k] != '}' {
      assert !OccursAt(text, "}", k);
      assert text[k..k + 1] == [text[k]];
    }
  }

  /** What chat returns (Err when an exception escapes it, outside its try), the prompts
      it sent to the model, and the registry after. */
  datatype Chatting = Chatting(reply: Result<string, Exn>, prompts: seq<string>,
                               servers: map<string, MCPServer>)

  /** chat, after the catalogue was built and described. */
  function Converse(servers: map<string, MCPServer>, system: string, message: string,
                    model: Model, encode: Json -> string, decode: string -> Option<Json>,
                    rt: Runtime): Chatting
  {
    var full := FullPrompt(system, message);
    match model(full)
    case Err(e) => Chatting(Ok(ChatErrorPrefix + ExnText(rt, e)), [full], servers)
    case Ok(text) =>
      if !Contains(text, Marker) then Chatting(Ok(text), [full], servers)
      else match decode(ToolCallSlice(text))
        case None => Chatting(Ok(text), [full], servers)
        case Some(call) =>
          match Fields3(call, "server", "tool", "arguments")
          case Err(e) => Chatting(Ok(ChatErrorPrefix + ExnText(rt, e)), [full], servers)
          case Ok(parts) =>
            var c := CallOutcome(servers, parts.0, parts.1, parts.2, encode, decode, rt);
            match c.answer
            case Err(e) => Chatting(Ok(ChatErrorPrefix + ExnText(rt, e)), [full], c.servers)
            case Ok(answer) =>
              var final := FinalPrompt(system, message, Str(rt, parts.0), Str(rt, parts.1),
                                       Str(rt, answer));
              match model(final)
              case Err(e) =>
                Chatting(Ok(ChatErrorPrefix + ExnText(rt, e)), [full, final], c.servers)
              case Ok(finalText) => Chatting(Ok(finalText), [full, final], c.servers)
  }

  /** x[a], x[b], x[c] in turn. */
  function Fields3(x: Json, a: string, b: string, c: string): Result<(Json, Json, Json), Exn>
  {
    match Field(x, a)
    case Err(e) => Err(e)
    case Ok(va) =>
      match Field(x, b)
      case Err(e) => Err(e)
      case Ok(vb) =>
        match Field(x, c)
        case Err(e) => Err(e)
        case Ok(vc) => Ok((va, vb, vc))
  }

  /** chat(message). */
  function ChatOutcome(order: seq<string>, servers: map<string, MCPServer>, message: string,
                       model: Model, encode: Json -> string, decode: string -> Option<Json>,
                       rt: Runtime): Chatting
    requires forall n :: n in order ==> n in servers
  {
    match Catalogue(order, servers)
    case Err(e) => Chatting(Err(e), [], servers)
    case Ok(tools) =>
      match DescribeAll(tools, rt)
      case Err(e) => Chatting(Err(e), [], servers)
      case Ok(lines) =>
        Converse(servers, SystemPrompt(Join("\n", lines)), message, model, encode, decode, rt)
  }

  /** Without the marker, or with a slice that does not decode, the model's first text is
      the answer after one model call, and no tool is called. */
  lemma ChatWithoutToolCall(servers: map<string, MCPServer>, system: string, message: string,
                            model: Model, encode: Json -> string,
                            decode: string -> Option<Json>, rt: Runtime)
    requires model(FullPrompt(system, message)).Ok?
    requires var text := model(FullPrompt(system, message)).value;
      !Contains(text, Marker) || decode(ToolCallSlice(text)).None?
    ensures Converse(servers, system, message, model, encode, decode, rt)
            == Chatting(Ok(model(FullPrompt(system, message)).value),
                        [FullPrompt(system, message)], servers)
  {
  }

  /** With a marker and no '}' after it the slice is empty, which json.loads rejects: the
      model's text is returned. */
  lemma ChatNoBrace(servers: map<string, MCPServer>, system: string, message: string,
                    model: Model, encode: Json -> string, decode: string -> Option<Json>,
                    rt: Runtime)
    requires decode([]).None?
    requires model(FullPrompt(system, message)).Ok?
    requires var text := model(FullPrompt(system, message)).value;
      Contains(text, Marker) && IndexOf(text, "}", IndexOf(text, Marker, 0)) == -1
    ensures Converse(servers, system, message, model, encode, decode, rt).reply
            == Ok(model(FullPrompt(system, message)).value)
  {
    ToolCallSliceSpan(model(FullPrompt(system, message)).value);
    assert Strip([]) == [];
  }

  /** A decoded tool call is forwarded to call_tool, and the model's second text is the
      answer. */
  lemma ChatWithToolCall(servers: map<string, MCPServer>, system: string, message: string,
                         model: Model, encode: Json -> string,
                         decode: string -> Option<Json>, rt: Runtime,
                         serverName: Json, toolName: Json, arguments: Json)
    requires model(FullPrompt(system, message)).Ok?
    requires var text := model(FullPrompt(system, message)).value;
      Contains(text, Marker) && decode(ToolCallSlice(text)).Some?
      && decode(ToolCallSlice(text)).value
         == JObj(map["server" := serverName, "tool" := toolName, "arguments" := arguments])
    ensures var c := CallOutcome(servers, serverName, toolName, arguments, encode, decode, rt);
      var chat := Converse(servers, system, message, model, encode, decode, rt);
      && chat.servers == c.servers
      && (c.answer.Ok? ==>
            var final := FinalPrompt(system, message, Str(rt, serverName), Str(rt, toolName),
                                     Str(rt, c.answer.value));
            && chat.prompts == [FullPrompt(system, message), final]
            && (model(final).Ok? ==> chat.reply == Ok(model(final).value)))
  {
    var call := JObj(map["server" := serverName, "tool" := toolName, "arguments" := arguments]);
    assert Field(call, "server") == Ok(serverName);
    assert Field(call, "tool") == Ok(toolName);
    assert Field(call, "arguments") == Ok(arguments);
    assert Fields3(call, "server", "tool", "arguments") == Ok((serverName, toolName, arguments));
  }

  // ---------------------------------------------------------------------------
  // The writer thread

  /** What `input_queue.get(timeout=0.1)` yields to the writer: nothing yet, a message,
      or the None that stops it. */
  datatype Feed = Idle | Message(text: string) | Stop

  /** The messages the writer writes: those before the first Stop. */
  function Delivered(feed: seq<Feed>): seq<string>
  {
    if |feed| == 0 || feed[0].Stop? then []
    else if feed[0].Idle? then Delivered(feed[1..])
    else [feed[0].text] + Delivered(feed[1..])
  }

  /** write_stdin: each message followed by '\n'; a timeout is skipped; None ends it. */
  method WriteStdin(feed: seq<Feed>, stdin: OutStream)
    modifies stdin
    ensures stdin.written == old(stdin.written) + NewlineFramed(Delivered(feed))
  {
    var i := 0;
    while i < |feed|
      invariant i <= |feed|
      invariant stdin.written + NewlineFramed(Delivered(feed[i..]))
                == old(stdin.written) + NewlineFramed(Delivered(feed))
    {
      var item := feed[i];
      assert feed[i..][1..] == feed[i + 1..];
      if item.Stop? {
        assert Delivered(feed[i..]) == [];
        return;
      }
      if item.Message? {
        stdin.Write(item.text + "\n");
        assert Delivered(feed[i..]) == [item.text] + Delivered(feed[i + 1..]);
      }
      i := i + 1;
    }
  }

  // ---------------------------------------------------------------------------
  // The client

  class GeminiMCPClient {
    /** self.servers, and the order its keys were first inserted in. */
    var servers: map<string, MCPServer>
    var order: seq<string>
    /** The processes process.terminate() was called on, in order. */
    var terminated: seq<ProcId>
    /** The prompts sent to the model, in order. */
    var prompts: seq<string>

    ghost predicate Valid()
      reads this
    {
      (forall n :: n in servers <==> n in order) && Distinct(order)
    }

    constructor ()
      ensures Valid()
      ensures servers == map[] && order == [] && terminated == [] && prompts == []
    {
      servers := map[];
      order := [];
      terminated := [];
      prompts := [];
    }

    /** connect_server(server_path). */
    method ConnectServer(serverPath: string, spawned: Option<ProcId>, output: seq<Poll>,
                         encode: Json -> string, decode: string -> Option<Json>)
      returns (ok: bool)
      requires Valid()
      modifies this
      ensures Valid()
      ensures var c := Connect(serverPath, spawned, output, encode, decode);
        && ok == c.ok
        && terminated == old(terminated) + c.terminated
        && prompts == old(prompts)
        && (c.registered.None? ==> servers == old(servers) && order == old(order))
        && (c.registered.Some? ==>
              && servers == old(servers)[Basename(serverPath) := c.registered.value]
              && order == Enrolled(old(order), Basename(serverPath)))
    {
      var registered, killed;
      ok, registered, killed := Handshake(serverPath, spawned, output, encode, decode);
      terminated := terminated + killed;
      if registered.Some? {
        Enroll(Basename(serverPath), registered.value);
      }
    }

    /** self.servers[name] = server */
    method Enroll(name: string, server: MCPServer)
      requires Valid()
      modifies this
      ensures Valid()
      ensures servers == old(servers)[name := server] && order == Enrolled(old(order), name)
      ensures terminated == old(terminated) && prompts == old(prompts)
    {
      if name !in order {
        order := order + [name];
      }
      servers := servers[name := server];
    }

    /** call_tool(server_name, tool_name, arguments). */
    method CallTool(serverName: Json, toolName: Json, arguments: Json,
                    encode: Json -> string, decode: string -> Option<Json>, rt: Runtime)
      returns (answer: Result<Json, Exn>)
      requires Valid()
      modifies this
      ensures Valid()
      ensures Calling(answer, servers)
              == CallOutcome(old(servers), serverName, toolName, arguments, encode, decode, rt)
      ensures order == old(order) && terminated == old(terminated) && prompts == old(prompts)
    {
      if !Hashable(serverName) {
        return Err(Unhashable(TypeName(serverName)));
      }
      if !serverName.JStr? || serverName.s !in servers {
        return Ok(JStr(NotFoundText(rt, serverName)));
      }
      var server := servers[serverName.s];
      var sent := server.sent + [encode(ToolRequest(toolName, arguments))];
      var reply, rest := PollQueue(server.pending, CallPolls, decode);
      servers := servers[serverName.s := server.(sent := sent, pending := rest)];
      answer := Ok(CallAnswer(reply, rt));
    }

    /** get_available_tools(): nothing in the registry changes. */
    method GetAvailableTools() returns (tools: Result<seq<Json>, Exn>)
      requires Valid()
      ensures tools == Catalogue(order, servers)
    {
      var all: seq<Json> := [];
      var i := 0;
      assert order[0..] == order;
      PrependNothing(Catalogue(order, servers));
      while i < |order|
        invariant i <= |order|
        invariant Catalogue(order, servers) == Prepend(all, Catalogue(order[i..], servers))
      {
        assert order[i..][1..] == order[i + 1..];
        var server := servers[order[i]];
        var items := Elements(server.tools);
        if items.Err? {
          return Err(items.error);
        }
        var tagged := TagAll(items.value, order[i]);
        if tagged.Err? {
          return tagged;
        }
        PrependTwice(all, tagged.value, Catalogue(order[i + 1..], servers));
        all := all + tagged.value;
        i := i + 1;
      }
      assert all + [] == all;
      tools := Ok(all);
    }

    /** chat(message). */
    method Chat(message: string, model: Model, encode: Json -> string,
                decode: string -> Option<Json>, rt: Runtime)
      returns (reply: Result<string, Exn>)
      requires Valid()
      modifies this
      ensures Valid()
      ensures var c := ChatOutcome(old(order), old(servers), message, model, encode, decode, rt);
        reply == c.reply && prompts == old(prompts) + c.prompts && servers == c.servers
      ensures order == old(order) && terminated == old(terminated)
    {
      var tools := GetAvailableTools();
      if tools.Err? {
        return Err(tools.error);
      }
      var lines := DescribeAll(tools.value, rt);
      if lines.Err? {
        return Err(lines.error);
      }
      var system := SystemPrompt(Join("\n", lines.value));
      assert ChatOutcome(order, servers, message, model, encode, decode, rt)
             == Converse(servers, system, message, model, encode, decode, rt);
      reply := Respond(system, message, model, encode, decode, rt);
    }

    /** The part of chat after the system prompt is built. */
    method Respond(system: string, message: string, model: Model, encode: Json -> string,
                   decode: string -> Option<Json>, rt: Runtime)
      returns (reply: Result<string, Exn>)
      requires Valid()
      modifies this
      ensures Valid()
      ensures var c := Converse(old(servers), system, message, model, encode, decode, rt);
        reply == c.reply && prompts == old(prompts) + c.prompts && servers == c.servers
      ensures order == old(order) && terminated == old(terminated)
    {
      var full := FullPrompt(system, message);
      prompts := prompts + [full];
      var response := model(full);
      if response.Err? {
        return Ok(ChatErrorPrefix + ExnText(rt, response.error));
      }
      var text := response.value;
      if !Contains(text, Marker) {
        return Ok(text);
      }
      var call := decode(ToolCallSlice(text));
      if call.None? {
        return Ok(text);
      }
      var parts := Fields3(call.value, "server", "tool", "arguments");
      if parts.Err? {
        return Ok(ChatErrorPrefix + ExnText(rt, parts.error));
      }
      var (serverName, toolName, arguments) := parts.value;
      var answer := CallTool(serverName, toolName, arguments, encode, decode, rt);
      if answer.Err? {
        return Ok(ChatErrorPrefix + ExnText(rt, answer.error));
      }
      var final := FinalPrompt(system, message, Str(rt, serverName), Str(rt, toolName),
                               Str(rt, answer.value));
      prompts := prompts + [final];
      var finalResponse := model(final);
      if finalResponse.Err? {
        return Ok(ChatErrorPrefix + ExnText(rt, finalResponse.error));
      }
      reply := Ok(finalResponse.value);
    }

    /** cleanup(): every registered process is terminated, in registration order, and the
        registry is emptied. */
    method Cleanup()
      requires Valid()
      modifies this
      ensures Valid()
      ensures servers == map[] && order == []
      ensures terminated == old(terminated) + Processes(old(order), old(servers))
      ensures prompts == old(prompts)
    {
      var i := 0;
      while i < |order|
        invariant i <= |order|
        invariant Valid()
        invariant terminated == old(terminated) + Processes(order[..i], servers)
        invariant servers == old(servers) && order == old(order) && prompts == old(prompts)
      {
        assert order[..i + 1] == order[..i] + [order[i]];
        ProcessesSnoc(order[..i], order[i], servers);
        terminated := terminated + [servers[order[i]].process];
        i := i + 1;
      }
      assert order[..i] == order;
      servers := map[];
      order := [];
    }
  }

  /** The handshake of connect_server: the two requests are queued, each reply is polled
      for in turn, and the outcome reports the server to register and the processes
      terminated. */
  method Handshake(serverPath: string, spawned: Option<ProcId>, output: seq<Poll>,
                   encode: Json -> string, decode: string -> Option<Json>)
    returns (ok: bool, registered: Option<MCPServer>, killed: seq<ProcId>)
    ensures Connection(ok, registered, killed) == Connect(serverPath, spawned, output, encode, decode)
  {
    if spawned.None? {
      return false, None, [];
    }
    var process := spawned.value;
    var sent := [encode(InitRequest)];
    var init, rest := PollQueue(output, InitPolls, decode);
    if init.None? {
      return false, None, [process];
    }
    sent := sent + [encode(ToolsRequest)];
    var listed, rest' := PollQueue(rest, ListPolls, decode);
    if listed.None? {
      return false, None, [process];
    }
    var listing := ReadListing(listed.value);
    if listing.Aborted? {
      return false, None, [];
    }
    if listing.Rejected? {
      return false, None, [process];
    }
    assert sent == [encode(InitRequest), encode(ToolsRequest)];
    var server := MCPServer(Basename(serverPath), process, listing.tools, sent, rest');
    return ToolNames(listing.tools).Ok?, Some(server), [];
  }

  /** The inner loop of get_available_tools for one server. */
  method TagAll(items: seq<Json>, name: string) returns (r: Result<seq<Json>, Exn>)
    ensures r == Tagged(items, name)
  {
    var acc: seq<Json> := [];
    var i := 0;
    assert items[0..] == items;
    PrependNothing(Tagged(items, name));
    while i < |items|
      invariant i <= |items|
      invariant Tagged(items, name) == Prepend(acc, Tagged(items[i..], name))
    {
      assert items[i..][1..] == items[i + 1..];
      var tool := items[i];
      if !tool.JObj? {
        return if tool.JArr? then Err(BadIndexType("list", "str"))
               else Err(NoAttribute(TypeName(tool), "copy"));
      }
      var info := JObj(tool.fields["server" := JStr(name)]);
      PrependTwice(acc, [info], Tagged(items[i + 1..], name));
      acc := acc + [info];
      i := i + 1;
    }
    assert acc + [] == acc;
    r := Ok(acc);
  }

  /** The processes of the named servers, in that order. */
  function Processes(names: seq<string>, servers: map<string, MCPServer>): seq<ProcId>
    requires forall n :: n in names ==> n in servers
  {
    if |names| == 0 then []
    else Processes(names[..|names| - 1], servers) + [servers[names[|names| - 1]].process]
  }

  lemma ProcessesSnoc(names: seq<string>, name: string, servers: map<string, MCPServer>)
    requires forall n :: n in names ==> n in servers
    requires name in servers
    ensures Processes(names + [name], servers) == Processes(names, servers) + [servers[name].process]
  {
    assert (names + [name])[..|names|] == names;
  }

  /** cleanup terminates every registered server's process. */
  lemma {:induction false} CleanupTerminatesAll(names: seq<string>,
                                                servers: map<string, MCPServer>, n: string)
    requires forall m :: m in names ==> m in servers
    requires n in names
    ensures servers[n].process in Processes(names, servers)
    decreases |names|
  {
    if names[|names| - 1] != n {
      var front := names[..|names| - 1];
      assert n in front by {
        var k :| 0 <= k < |names| && names[k] == n;
        assert front[k] == n;
      }
      assert forall m :: m in front ==> m in names;
      CleanupTerminatesAll(front, servers, n);
    }
  }
}
