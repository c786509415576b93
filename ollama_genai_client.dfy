/** The client of src/client/client_ollama.py: it connects without listing tools, builds
    the declarations once when the chat loop starts, and folds function calls by
    recursing in parse_answer with the user's original query every time. */
module OllamaGenaiClient {
  import opened Common
  import opened JsonValues
  import S = SessionClient
  import opened SdkClients

  /** `query + response.text if response.text else query` */
  function PreQuery(query: string, text: Option<string>): (r: string)
    ensures query <= r
    ensures HasText(text) ==> r == query + text.value
    ensures !HasText(text) ==> r == query
  {
    if HasText(text) then query + text.value else query
  }

  /** parse_answer(query, response), with `fuel` bounding the recursion the source does
      not bound. It reads candidates[0] but prints nothing else, executes only the first
      function call, and recurses on the model's answer to the follow-up prompt with the
      same query it was given. */
  function ParseAnswer(query: string, response: Response, call: Caller, generate: Generate,
                       tools: seq<ModelTool>, fuel: nat): Parse
    decreases fuel
  {
    if |response.candidates| == 0 then Parse([], Failed(IndexError))
    else if |response.functionCalls| == 0 then Parse([], Answer(TextOr(response.text)))
    else
      match FollowUpPrompt(PreQuery(query, response.text), response.functionCalls[0], call)
      case Err(e) => Parse([], Failed(e))
      case Ok(prompt) =>
        match generate(prompt, tools)
        case Err(e) => Parse([prompt], Failed(e))
        case Ok(next) =>
          if fuel == 0 then Parse([prompt], OutOfFuel)
          else Sent(prompt, ParseAnswer(query, next, call, generate, tools, fuel - 1))
  }

  /** Without function calls, the answer is the response's text or "". */
  lemma NoCallsAnswered(query: string, response: Response, call: Caller, generate: Generate,
                        tools: seq<ModelTool>, fuel: nat)
    requires |response.candidates| > 0 && |response.functionCalls| == 0
    ensures ParseAnswer(query, response, call, generate, tools, fuel)
            == Parse([], Answer(TextOr(response.text)))
  {
  }

  /** Only the first function call is executed. */
  lemma OnlyFirstCall(query: string, response: Response, call: Caller, generate: Generate,
                      tools: seq<ModelTool>, fuel: nat)
    requires |response.functionCalls| > 0
    ensures ParseAnswer(query, response.(functionCalls := [response.functionCalls[0]]),
                        call, generate, tools, fuel)
            == ParseAnswer(query, response, call, generate, tools, fuel)
  {
  }

  /** The follow-up prompt is `pre_query` and the tool's texts joined with a blank line,
      and the recursion is on the model's answer with the original query. */
  lemma FollowsUp(query: string, response: Response, call: Caller, generate: Generate,
                  tools: seq<ModelTool>, fuel: nat, texts: seq<string>)
    requires |response.candidates| > 0 && |response.functionCalls| > 0
    requires var c := call(response.functionCalls[0]);
      c.Ok? && ToolTexts(c.value) == Ok(texts)
    ensures var prompt := Join("\n\n", [PreQuery(query, response.text)] + texts);
      && ParseAnswer(query, response, call, generate, tools, fuel).prompts[0] == prompt
      && (generate(prompt, tools).Ok? && fuel > 0 ==>
            ParseAnswer(query, response, call, generate, tools, fuel)
            == Sent(prompt, ParseAnswer(query, generate(prompt, tools).value,
                                        call, generate, tools, fuel - 1)))
  {
  }

  predicate AllBeginWith(prompts: seq<string>, query: string)
  {
    forall j :: 0 <= j < |prompts| ==> query <= prompts[j]
  }

  /** However deep the folding goes, every follow-up prompt begins with the user's query. */
  lemma {:induction false} PromptsKeepQuery(query: string, response: Response, call: Caller,
                                            generate: Generate, tools: seq<ModelTool>, fuel: nat)
    ensures AllBeginWith(ParseAnswer(query, response, call, generate, tools, fuel).prompts, query)
    decreases fuel
  {
    var p := ParseAnswer(query, response, call, generate, tools, fuel);
    if |response.candidates| > 0 && |response.functionCalls| > 0 {
      var prompt := FollowUpPrompt(PreQuery(query, response.text), response.functionCalls[0], call);
      if prompt.Ok? {
        assert query <= prompt.value by {
          assert query <= PreQuery(query, response.text) <= prompt.value;
        }
        if generate(prompt.value, tools).Ok? && fuel > 0 {
          var next := generate(prompt.value, tools).value;
          var rest := ParseAnswer(query, next, call, generate, tools, fuel - 1);
          PromptsKeepQuery(query, next, call, generate, tools, fuel - 1);
          assert p.prompts == [prompt.value] + rest.prompts;
          forall j | 0 <= j < |p.prompts| ensures query <= p.prompts[j] {
            if j == 0 {
              assert p.prompts[0] == prompt.value;
            } else {
              assert p.prompts[j] == rest.prompts[j - 1];
            }
          }
        }
      }
    }
  }

  /** More fuel changes nothing once a run has ended without running out. */
  lemma {:induction false} FuelSuffices(query: string, response: Response, call: Caller,
                                        generate: Generate, tools: seq<ModelTool>, fuel: nat)
    requires ParseAnswer(query, response, call, generate, tools, fuel).ending != OutOfFuel
    ensures ParseAnswer(query, response, call, generate, tools, fuel + 1)
            == ParseAnswer(query, response, call, generate, tools, fuel)
    decreases fuel
  {
    if |response.candidates| > 0 && |response.functionCalls| > 0 {
      var prompt := FollowUpPrompt(PreQuery(query, response.text), response.functionCalls[0], call);
      if prompt.Ok? && generate(prompt.value, tools).Ok? {
        FuelSuffices(query, generate(prompt.value, tools).value, call, generate, tools, fuel - 1);
      }
    }
  }

  /** What the chat loop does for one query. */
  function ChatTurn(session: Option<S.ServerParams>, tools: seq<ModelTool>, sdk: S.Sdk,
                    generate: Generate, read: Reader, rt: Runtime, fuel: nat): Turn<string>
  {
    (k: nat, query: string) =>
      TemplateTurn(query, generate, tools,
                   (q: string, r: Response) =>
                     ParseAnswer(q, r, SessionCaller(session, sdk), generate, tools, fuel).ending,
                   session, read, rt)
  }

  class MCPClient {
    /** The script arguments the client was built with. */
    const serverScriptPath: seq<string>
    /** self.session */
    var session: Option<S.ServerParams>
    /** self.tools: the declarations handed to the model. */
    var tools: seq<ModelTool>

    constructor (serverScriptPath: seq<string>)
      ensures this.serverScriptPath == serverScriptPath && session.None? && tools == []
    {
      this.serverScriptPath := serverScriptPath;
      session := None;
      tools := [];
    }

    /** connect_to_server: refuses the script or spawns its launcher, then enters and
        initialises the session. No tools are listed. */
    method ConnectToServer(open: S.Opener) returns (raised: Option<Exn>)
      modifies this
      ensures var entered := Entered(serverScriptPath, open);
        session == (if entered.Some? then entered else old(session))
      ensures raised == ConnectRaised(serverScriptPath, open) && tools == old(tools)
    {
      var launch := Launch(serverScriptPath);
      if launch.Err? {
        return Some(launch.error);
      }
      var opening := open(launch.value);
      if opening.SpawnRaised? {
        return Some(opening.error);
      }
      session := Some(launch.value);
      raised := Initialize(opening);
    }

    /** chat_loop over the given input lines: the declarations are built once, before the
        loop and outside its try, so a failure there escapes and no query is read. */
    method ChatLoop(inputs: seq<string>, sdk: S.Sdk, generate: Generate, read: Reader,
                    rt: Runtime, fuel: nat)
      returns (printed: seq<string>, raised: Option<Exn>)
      modifies this
      ensures session == old(session)
      ensures var listed := ToolList(session, sdk);
        && (listed.Err? ==> raised == Some(listed.error) && printed == [] && tools == old(tools))
        && (listed.Ok? ==> raised.None? && tools == listed.value
                           && printed == Transcript(inputs, ChatTurn(session, tools, sdk, generate,
                                                                     read, rt, fuel), 0))
    {
      var listed := ToolList(session, sdk);
      if listed.Err? {
        return [], Some(listed.error);
      }
      tools := listed.value;
      printed := RunLoop(inputs, ChatTurn(session, tools, sdk, generate, read, rt, fuel));
      raised := None;
    }
  }
}
