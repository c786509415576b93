/** The genai client that caches the server's tools when it connects and folds function
    calls by recursing in parse_answer, carrying the query forward only while the model
    also returns text. */
module GenaiParsingClient {
  import opened Common
  import opened JsonValues
  import S = SessionClient
  import opened SdkClients

  /** parse_answer(query, response), with `fuel` bounding the recursion the source does
      not bound. It reads candidates[0] and prints the candidates before it looks at the
      function calls, executes only the first call, and recurses on the model's answer
      to the follow-up prompt with `pre_query` as the new query. */
  function ParseAnswer(query: string, response: Response, call: Caller, generate: Generate,
                       tools: seq<ModelTool>, rt: Runtime, fuel: nat): Parse
    decreases fuel
  {
    if |response.candidates| == 0 then Parse([], Failed(IndexError))
    else if CandidateLines(response.candidates, 1, rt).Err? then
      Parse([], Failed(CandidateLines(response.candidates, 1, rt).error))
    else if |response.functionCalls| == 0 then Parse([], Answer(TextOr(response.text)))
    else
      var pre := PreQuery(query, response.text);
      match FollowUpPrompt(pre, response.functionCalls[0], call)
      case Err(e) => Parse([], Failed(e))
      case Ok(prompt) =>
        match generate(prompt, tools)
        case Err(e) => Parse([prompt], Failed(e))
        case Ok(next) =>
          if fuel == 0 then Parse([prompt], OutOfFuel)
          else Sent(prompt, ParseAnswer(pre, next, call, generate, tools, rt, fuel - 1))
  }

  /** `query + response.text if response.text else ""`: without text the query is
      dropped. */
  function PreQuery(query: string, text: Option<string>): (r: string)
    ensures HasText(text) ==> r == query + text.value
    ensures !HasText(text) ==> r == ""
    ensures r == "" <==> !HasText(text)
    ensures r == "" || (query <= r && |r| > |query|)
  {
    if HasText(text) then query + text.value else ""
  }

  /** Without function calls, the answer is the response's text or "". */
  lemma NoCallsAnswered(query: string, response: Response, call: Caller, generate: Generate,
                        tools: seq<ModelTool>, rt: Runtime, fuel: nat)
    requires |response.candidates| > 0 && CandidateLines(response.candidates, 1, rt).Ok?
    requires |response.functionCalls| == 0
    ensures ParseAnswer(query, response, call, generate, tools, rt, fuel)
            == Parse([], Answer(TextOr(response.text)))
  {
  }

  /** A response without candidates fails on candidates[0], function calls or not. */
  lemma NoCandidates(query: string, response: Response, call: Caller, generate: Generate,
                     tools: seq<ModelTool>, rt: Runtime, fuel: nat)
    requires |response.candidates| == 0
    ensures ParseAnswer(query, response, call, generate, tools, rt, fuel).ending == Failed(IndexError)
  {
  }

  /** Only the first function call counts: the others are never executed, so dropping
      them changes nothing. */
  lemma OnlyFirstCall(query: string, response: Response, call: Caller, generate: Generate,
                      tools: seq<ModelTool>, rt: Runtime, fuel: nat)
    requires |response.functionCalls| > 0
    ensures ParseAnswer(query, response.(functionCalls := [response.functionCalls[0]]),
                        call, generate, tools, rt, fuel)
            == ParseAnswer(query, response, call, generate, tools, rt, fuel)
  {
  }

  /** With a function call whose tool answers in text, the follow-up prompt is `pre_query`
      and the tool's texts joined with a blank line, and the result is that of the
      recursion on the model's answer, with `pre_query` as the query. */
  lemma FollowsUp(query: string, response: Response, call: Caller, generate: Generate,
                  tools: seq<ModelTool>, rt: Runtime, fuel: nat, texts: seq<string>)
    requires |response.candidates| > 0 && CandidateLines(response.candidates, 1, rt).Ok?
    requires |response.functionCalls| > 0
    requires var c := call(response.functionCalls[0]);
      c.Ok? && ToolTexts(c.value) == Ok(texts)
    ensures var pre := PreQuery(query, response.text);
      var prompt := Join("\n\n", [pre] + texts);
      && ParseAnswer(query, response, call, generate, tools, rt, fuel).prompts[0] == prompt
      && (generate(prompt, tools).Ok? && fuel > 0 ==>
            ParseAnswer(query, response, call, generate, tools, rt, fuel)
            == Sent(prompt, ParseAnswer(pre, generate(prompt, tools).value,
                                        call, generate, tools, rt, fuel - 1)))
  {
  }

  /** A follow-up to a text-less response carries neither the query nor any text: its
      prompt is only the tool's texts after an empty first line. */
  lemma QueryDropped(query: string, response: Response, call: Caller, generate: Generate,
                     tools: seq<ModelTool>, rt: Runtime, fuel: nat, texts: seq<string>)
    requires |response.candidates| > 0 && CandidateLines(response.candidates, 1, rt).Ok?
    requires |response.functionCalls| > 0 && !HasText(response.text)
    requires var c := call(response.functionCalls[0]);
      c.Ok? && ToolTexts(c.value) == Ok(texts)
    ensures ParseAnswer(query, response, call, generate, tools, rt, fuel).prompts[0]
            == Join("\n\n", [""] + texts)
  {
  }

  /** More fuel changes nothing once a run has ended without running out. */
  lemma {:induction false} FuelSuffices(query: string, response: Response, call: Caller,
                                        generate: Generate, tools: seq<ModelTool>, rt: Runtime,
                                        fuel: nat)
    requires ParseAnswer(query, response, call, generate, tools, rt, fuel).ending != OutOfFuel
    ensures ParseAnswer(query, response, call, generate, tools, rt, fuel + 1)
            == ParseAnswer(query, response, call, generate, tools, rt, fuel)
    decreases fuel
  {
    if |response.candidates| > 0 && CandidateLines(response.candidates, 1, rt).Ok?
       && |response.functionCalls| > 0 {
      var pre := PreQuery(query, response.text);
      var prompt := FollowUpPrompt(pre, response.functionCalls[0], call);
      if prompt.Ok? && generate(prompt.value, tools).Ok? {
        var next := generate(prompt.value, tools).value;
        FuelSuffices(pre, next, call, generate, tools, rt, fuel - 1);
      }
    }
  }

  /** What the chat loop does for one query. */
  function ChatTurn(session: Option<S.ServerParams>, tools: seq<ModelTool>, sdk: S.Sdk,
                    generate: Generate, read: Reader, rt: Runtime, fuel: nat): Turn<string>
  {
    (k: nat, query: string) =>
      TemplateTurn(query, generate, tools,
                   (q: string, r: Response) =>
                     ParseAnswer(q, r, SessionCaller(session, sdk), generate, tools, rt, fuel).ending,
                   session, read, rt)
  }

  class MCPClient {
    /** The script arguments the client was built with. */
    const serverScriptPath: seq<string>
    /** self.session */
    var session: Option<S.ServerParams>
    /** self.tools: the declarations handed to the model. */
    var tools: seq<ModelTool>

    constructor (serverScriptPath: seq<string>)
      ensures this.serverScriptPath == serverScriptPath && session.None? && tools == []
    {
      this.serverScriptPath := serverScriptPath;
      session := None;
      tools := [];
    }

    /** connect_to_server: refuses the script or spawns its launcher, enters and
        initialises the session, then lists the session's tools into self.tools. The
        result is what escapes, if anything. */
    method ConnectToServer(open: S.Opener, sdk: S.Sdk) returns (raised: Option<Exn>)
      modifies this
      ensures var entered := Entered(serverScriptPath, open);
        session == (if entered.Some? then entered else old(session))
      ensures ConnectRaised(serverScriptPath, open).Some? ==>
                raised == ConnectRaised(serverScriptPath, open) && tools == old(tools)
      ensures ConnectRaised(serverScriptPath, open).None? ==>
                var listed := ToolList(session, sdk);
                && (listed.Ok? ==> raised.None? && tools == listed.value)
                && (listed.Err? ==> raised == Some(listed.error) && tools == old(tools))
    {
      var launch := Launch(serverScriptPath);
      if launch.Err? {
        return Some(launch.error);
      }
      var opening := open(launch.value);
      if opening.SpawnRaised? {
        return Some(opening.error);
      }
      session := Some(launch.value);
      raised := Initialize(opening);
      if raised.Some? {
        return;
      }
      var listed := ToolList(session, sdk);
      if listed.Err? {
        return Some(listed.error);
      }
      tools := listed.value;
    }

    /** chat_loop over the given input lines: what it prints. */
    method ChatLoop(inputs: seq<string>, sdk: S.Sdk, generate: Generate, read: Reader,
                    rt: Runtime, fuel: nat)
      returns (printed: seq<string>)
      ensures printed == Transcript(inputs, ChatTurn(session, tools, sdk, generate, read, rt, fuel), 0)
    {
      printed := RunLoop(inputs, ChatTurn(session, tools, sdk, generate, read, rt, fuel));
    }
  }
}
