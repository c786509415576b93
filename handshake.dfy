/** The queue-polling client connecting to the line-delimited calculator server. The
    server prints its initialization result before it reads anything and answers
    `initialize` as an unknown method; the client takes the first decodable line as the
    reply to whatever it asked last. So it takes the unsolicited line as the reply to
    `initialize`, then the -32601 error as the reply to `tools/list`, and gives up
    without registering the server. */
module Handshake {
  import opened Common
  import opened JsonValues
  import C = CalculatorServer
  import Q = QueueClient

  /** What the handshake relies on of json.dumps and json.loads: a value is written as
      one non-empty line with no surrounding whitespace and no '\r' (json.dumps escapes
      control characters), and read back from it, with or without the line's '\n'. */
  ghost predicate LineCodec(encode: Json -> string, decode: string -> Option<Json>)
  {
    forall x :: decode(encode(x)) == Some(x) && decode(encode(x) + "\n") == Some(x)
                && encode(x) != [] && Strip(encode(x)) == encode(x)
                && '\n' !in encode(x) && '\r' !in encode(x)
  }

  /** The server's answer to `initialize`. */
  const Rejection: Json := C.ErrorReply(C.MethodNotFound, C.UnknownMethodPrefix + "initialize")

  /** The lines the writer thread writes for the two handshake requests. */
  function HandshakeInput(encode: Json -> string): string
  {
    NewlineFramed([encode(Q.InitRequest), encode(Q.ToolsRequest)])
  }

  /** The handshake input is read back as the two request lines, neither blank. */
  lemma HandshakeLines(encode: Json -> string, decode: string -> Option<Json>)
    requires LineCodec(encode, decode)
    ensures var a, b := encode(Q.InitRequest), encode(Q.ToolsRequest);
      && Lines(HandshakeInput(encode), 0) == [a + "\n", b + "\n"]
      && Strip(a + "\n") != [] && Strip(b + "\n") != []
  {
    var a, b := encode(Q.InitRequest), encode(Q.ToolsRequest);
    NewlineFramedLines([a, b]);
    StripNewline(a);
    StripNewline(b);
  }

  lemma InitializeRejected(eval: C.Evaluator, rt: Runtime)
    ensures C.HandleRequest(Q.InitRequest, eval, rt) == Ok(Rejection)
  {
    assert Q.InitRequest.fields["method"] == JStr("initialize");
    C.OtherMethodsNotFound(Q.InitRequest.fields, eval, rt);
  }

  lemma ToolsListed(eval: C.Evaluator, rt: Runtime)
    ensures C.HandleRequest(Q.ToolsRequest, eval, rt) == Ok(C.ListTools())
  {
    C.ListToolsRouted(Q.ToolsRequest.fields, eval, rt);
  }

  /** Two non-blank lines, each answered, give the two answers and no crash. */
  lemma ServeTwo(l1: string, l2: string, respond: C.Responder, r1: Json, r2: Json)
    requires Strip(l1) != [] && Strip(l2) != []
    requires respond(l1) == Ok(r1) && respond(l2) == Ok(r2)
    ensures C.Serve([l1, l2], respond) == C.Served([r1, r2], None)
  {
    C.ServeCons(l2, [], respond);
    assert [l2] + [] == [l2];
    C.ServeCons(l1, [l2], respond);
    assert [l1] + [l2] == [l1, l2];
  }

  /** Given the two handshake requests, the server answers `initialize` with -32601 and
      `tools/list` with its catalogue, and keeps running. */
  lemma ServerAnswers(decode: string -> Option<Json>, encode: Json -> string,
                      eval: C.Evaluator, rt: Runtime)
    requires LineCodec(encode, decode)
    ensures C.Serve(Lines(HandshakeInput(encode), 0), C.Server(decode, eval, rt))
            == C.Served([Rejection, C.ListTools()], None)
  {
    var a, b := encode(Q.InitRequest), encode(Q.ToolsRequest);
    var respond := C.Server(decode, eval, rt);
    HandshakeLines(encode, decode);
    InitializeRejected(eval, rt);
    ToolsListed(eval, rt);
    assert respond(a + "\n") == C.Reply(a + "\n", decode, eval, rt);
    assert respond(b + "\n") == C.Reply(b + "\n", decode, eval, rt);
    ServeTwo(a + "\n", b + "\n", respond, Rejection, C.ListTools());
  }

  /** What the reader thread queues for the server's output: each reply's text. */
  lemma QueuedReplies(encode: Json -> string, decode: string -> Option<Json>, replies: seq<Json>)
    requires LineCodec(encode, decode)
    ensures Q.ReaderPuts(C.Printed(encode, replies)) == C.Encoded(encode, replies)
  {
    var ms := C.Encoded(encode, replies);
    assert Q.NoLineBreaks(ms);
    Q.ReaderPutsLines(ms);
  }

  /** A client whose queue holds, at most, a decodable line and then a decodable reply
      without `result` never registers the server and terminates it. */
  lemma ClientGivesUp(serverPath: string, process: Q.ProcId, output: seq<Q.Poll>,
                      decode: string -> Option<Json>, encode: Json -> string,
                      texts: seq<string>)
    requires |texts| >= 2
    requires forall k :: 0 <= k < |texts| ==> texts[k] != [] && decode(texts[k]).Some?
    requires Q.ReadListing(decode(texts[1]).value) == Q.Rejected
    requires Q.Arrivals(output) <= texts
    ensures Q.Connect(serverPath, Some(process), output, encode, decode)
            == Q.Connection(false, None, [process])
  {
    Q.PollArrivals(output, Q.InitPolls, decode, texts);
    var init := Q.PollFor(output, Q.InitPolls, decode);
    if init.reply.Some? {
      Q.PollArrivals(init.rest, Q.ListPolls, decode, texts[1..]);
    }
  }

  /** The same, for a server whose second printed reply has no `result`. */
  lemma ClientGivesUpOn(serverPath: string, process: Q.ProcId, output: seq<Q.Poll>,
                        encode: Json -> string, decode: string -> Option<Json>,
                        replies: seq<Json>)
    requires LineCodec(encode, decode)
    requires |replies| >= 2 && Q.ReadListing(replies[1]) == Q.Rejected
    requires Q.Arrivals(output) <= Q.ReaderPuts(C.Printed(encode, replies))
    ensures Q.Connect(serverPath, Some(process), output, encode, decode)
            == Q.Connection(false, None, [process])
  {
    QueuedReplies(encode, decode, replies);
    ClientGivesUp(serverPath, process, output, decode, encode, C.Encoded(encode, replies));
  }

  lemma RejectionRejected()
    ensures Q.ReadListing(Rejection) == Q.Rejected
  {
    assert "result" !in Rejection.fields;
  }

  /** Whatever prefix of the server's output has reached the client's queue, with any
      number of empty polls in between, connect_server fails and terminates the process:
      the init line is taken for the reply to `initialize`, and the -32601 error, which
      has no `result`, for the reply to `tools/list`. */
  lemma CalculatorNeverRegistered(serverPath: string, process: Q.ProcId, output: seq<Q.Poll>,
                                  encode: Json -> string, decode: string -> Option<Json>,
                                  eval: C.Evaluator, rt: Runtime)
    requires LineCodec(encode, decode)
    requires var served := C.Serve(Lines(HandshakeInput(encode), 0), C.Server(decode, eval, rt));
      Q.Arrivals(output) <= Q.ReaderPuts(C.Printed(encode, [C.InitReply] + served.replies))
    ensures Q.Connect(serverPath, Some(process), output, encode, decode)
            == Q.Connection(false, None, [process])
  {
    var served := C.Serve(Lines(HandshakeInput(encode), 0), C.Server(decode, eval, rt));
    ServerAnswers(decode, encode, eval, rt);
    var replies := [C.InitReply] + served.replies;
    assert replies[1] == Rejection;
    RejectionRejected();
    ClientGivesUpOn(serverPath, process, output, encode, decode, replies);
  }
}
