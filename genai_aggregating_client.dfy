/** The genai client of src/client/client_geni.py: it caches the server's tools when it
    connects, and its chat loop executes every function call of the model's first
    answer, appends their texts to that answer and asks the model once more. */
module GenaiAggregatingClient {
  import opened Common
  import opened JsonValues
  import S = SessionClient
  import opened SdkClients

  const Separator := "\n--\n"

  /** A call answered in text: the tool returned and every content item has text. */
  predicate Answers(call: Caller, c: FunctionCall)
  {
    call(c).Ok? && ToolTexts(call(c).value).Ok?
  }

  /** The joined text of one answered call. */
  function CallText(call: Caller, c: FunctionCall): string
    requires Answers(call, c)
  {
    Join(Separator, ToolTexts(call(c).value).value)
  }

  /** answer2: for each function call in order, the texts of the tool's answer joined
      with the separator; the first call that raises, or whose answer has a non-text
      item, fails the whole list. */
  function CallOutputs(calls: seq<FunctionCall>, call: Caller): (r: Result<seq<string>, Exn>)
    ensures r.Ok? <==> forall k :: 0 <= k < |calls| ==> Answers(call, calls[k])
    ensures r.Ok? ==> |r.value| == |calls|
    ensures r.Ok? ==> forall k :: 0 <= k < |calls| ==> r.value[k] == CallText(call, calls[k])
  {
    if |calls| == 0 then Ok([])
    else match call(calls[0])
      case Err(e) => Err(e)
      case Ok(answer) =>
        match ToolTexts(answer)
        case Err(e) => Err(e)
        case Ok(texts) =>
          var rest := CallOutputs(calls[1..], call);
          assert forall k :: 1 <= k < |calls| ==> calls[k] == calls[1..][k - 1];
          Extend([Join(Separator, texts)], rest)
  }

  /** The loop that fills answer2. */
  method CallAll(calls: seq<FunctionCall>, call: Caller) returns (r: Result<seq<string>, Exn>)
    ensures r == CallOutputs(calls, call)
  {
    var answers: seq<string> := [];
    var i := 0;
    assert calls[0..] == calls;
    ExtendNothing(CallOutputs(calls, call));
    while i < |calls|
      invariant i <= |calls|
      invariant CallOutputs(calls, call) == Extend(answers, CallOutputs(calls[i..], call))
    {
      assert calls[i..][1..] == calls[i + 1..];
      var answer := call(calls[i]);
      if answer.Err? {
        return Err(answer.error);
      }
      var texts := ToolTexts(answer.value);
      if texts.Err? {
        return Err(texts.error);
      }
      ExtendTwice(answers, [Join(Separator, texts.value)], CallOutputs(calls[i + 1..], call));
      answers := answers + [Join(Separator, texts.value)];
      i := i + 1;
    }
    assert answers + [] == answers;
    r := Ok(answers);
  }

  /** answer3.candidates[0].content.parts[0].text as printed: a missing text prints as
      `None`. */
  function FirstPartText(response: Response): Result<string, Exn>
  {
    if |response.candidates| == 0 || |response.candidates[0].parts| == 0 then Err(IndexError)
    else match response.candidates[0].parts[0].text
      case None => Ok("None")
      case Some(t) => Ok(t)
  }

  /** What one query makes the client send to the model, and what it prints. */
  datatype Exchange = Exchange(prompts: seq<string>, printed: seq<string>)

  /** One turn of chat_loop. Without function calls answer3 is still the empty string,
      so printing its candidates always fails; with them, a response without text
      cannot be appended to. */
  function Aggregate(query: string, generate: Generate, tools: seq<ModelTool>, call: Caller,
                     rt: Runtime): Exchange
  {
    match generate(query, tools)
    case Err(e) => Exchange([query], Caught(rt, e))
    case Ok(response) =>
      if |response.functionCalls| == 0 then
        Exchange([query], Caught(rt, NoAttribute("str", "candidates")))
      else match CallOutputs(response.functionCalls, call)
        case Err(e) => Exchange([query], Caught(rt, e))
        case Ok(answers) =>
          if response.text.None? then
            Exchange([query], Caught(rt, Unsupported("+=", "NoneType", "str")))
          else
            var followUp := response.text.value + Join(Separator, answers);
            Exchange([query, followUp],
                     match generate(followUp, tools)
                     case Err(e) => Caught(rt, e)
                     case Ok(last) =>
                       match FirstPartText(last)
                       case Err(e) => Caught(rt, e)
                       case Ok(text) => [text])
  }

  /** The model is asked once about the query, and a second time exactly when it asked
      for function calls, every one of them was answered in text and its answer had
      text; the second prompt is that text with the call texts appended without a
      separator of its own. */
  lemma OneFollowUp(query: string, generate: Generate, tools: seq<ModelTool>, call: Caller,
                    rt: Runtime)
    ensures var x := Aggregate(query, generate, tools, call, rt);
      var first := generate(query, tools);
      && 1 <= |x.prompts| <= 2 && x.prompts[0] == query
      && (|x.prompts| == 2 <==>
            first.Ok? && |first.value.functionCalls| > 0 && first.value.text.Some?
            && forall k :: 0 <= k < |first.value.functionCalls| ==>
                 Answers(call, first.value.functionCalls[k]))
      && (|x.prompts| == 2 ==>
            x.prompts[1] == first.value.text.value
                            + Join(Separator, CallOutputs(first.value.functionCalls, call).value))
  {
  }

  /** Without function calls the turn always ends in the error about `candidates`. */
  lemma NoCallsFail(query: string, generate: Generate, tools: seq<ModelTool>, call: Caller,
                    rt: Runtime)
    requires generate(query, tools).Ok? && |generate(query, tools).value.functionCalls| == 0
    ensures Aggregate(query, generate, tools, call, rt)
            == Exchange([query], Caught(rt, NoAttribute("str", "candidates")))
  {
  }

  /** Every function call is executed: with two calls, the follow-up carries both
      texts, in order. */
  lemma EveryCallExecuted(calls: seq<FunctionCall>, call: Caller)
    requires |calls| == 2 && Answers(call, calls[0]) && Answers(call, calls[1])
    ensures CallOutputs(calls, call) == Ok([CallText(call, calls[0]), CallText(call, calls[1])])
  {
    assert forall k :: 0 <= k < |calls| ==> calls[k] == calls[0] || calls[k] == calls[1];
    var answers := CallOutputs(calls, call).value;
    assert answers == [answers[0], answers[1]];
  }

  /** What the chat loop prints for one query. */
  function PrintedTurn(session: Option<S.ServerParams>, tools: seq<ModelTool>, sdk: S.Sdk,
                       generate: Generate, rt: Runtime): Turn<string>
  {
    (k: nat, query: string) => Aggregate(query, generate, tools, SessionCaller(session, sdk), rt).printed
  }

  /** The prompts the chat loop sends for one query. */
  function PromptTurn(session: Option<S.ServerParams>, tools: seq<ModelTool>, sdk: S.Sdk,
                      generate: Generate, rt: Runtime): Turn<string>
  {
    (k: nat, query: string) => Aggregate(query, generate, tools, SessionCaller(session, sdk), rt).prompts
  }

  class MCPClient {
    /** The script arguments the client was built with. */
    const serverScriptPath: seq<string>
    /** self.session */
    var session: Option<S.ServerParams>
    /** self.tools: the declarations handed to the model. */
    var tools: seq<ModelTool>

    constructor (serverScriptPath: seq<string>)
      ensures this.serverScriptPath == serverScriptPath && session.None? && tools == []
    {
      this.serverScriptPath := serverScriptPath;
      session := None;
      tools := [];
    }

    /** connect_to_server: refuses the script or spawns its launcher, enters and
        initialises the session, then lists the session's tools into self.tools. */
    method ConnectToServer(open: S.Opener, sdk: S.Sdk) returns (raised: Option<Exn>)
      modifies this
      ensures var entered := Entered(serverScriptPath, open);
        session == (if entered.Some? then entered else old(session))
      ensures ConnectRaised(serverScriptPath, open).Some? ==>
                raised == ConnectRaised(serverScriptPath, open) && tools == old(tools)
      ensures ConnectRaised(serverScriptPath, open).None? ==>
                var listed := ToolList(session, sdk);
                && (listed.Ok? ==> raised.None? && tools == listed.value)
                && (listed.Err? ==> raised == Some(listed.error) && tools == old(tools))
    {
      var launch := Launch(serverScriptPath);
      if launch.Err? {
        return Some(launch.error);
      }
      var opening := open(launch.value);
      if opening.SpawnRaised? {
        return Some(opening.error);
      }
      session := Some(launch.value);
      raised := Initialize(opening);
      if raised.Some? {
        return;
      }
      var listed := ToolList(session, sdk);
      if listed.Err? {
        return Some(listed.error);
      }
      tools := listed.value;
    }

    /** The body of one iteration of chat_loop for a query other than `quit`. */
    method Turn(query: string, sdk: S.Sdk, generate: Generate, rt: Runtime)
      returns (prompts: seq<string>, printed: seq<string>)
      ensures Exchange(prompts, printed) == Aggregate(query, generate, tools, SessionCaller(session, sdk), rt)
    {
      var call := SessionCaller(session, sdk);
      prompts := [query];
      var response := generate(query, tools);
      if response.Err? {
        return prompts, Caught(rt, response.error);
      }
      var answer1 := response.value.text;
      if |response.value.functionCalls| == 0 {
        return prompts, Caught(rt, NoAttribute("str", "candidates"));
      }
      var answer2 := CallAll(response.value.functionCalls, call);
      if answer2.Err? {
        return prompts, Caught(rt, answer2.error);
      }
      if answer1.None? {
        return prompts, Caught(rt, Unsupported("+=", "NoneType", "str"));
      }
      var followUp := answer1.value + Join(Separator, answer2.value);
      prompts := prompts + [followUp];
      var answer3 := generate(followUp, tools);
      if answer3.Err? {
        return prompts, Caught(rt, answer3.error);
      }
      var text := FirstPartText(answer3.value);
      printed := if text.Err? then Caught(rt, text.error) else [text.value];
    }

    /** chat_loop over the given input lines: what it prints and what it asks the
        model, query after query until `quit`. */
    method ChatLoop(inputs: seq<string>, sdk: S.Sdk, generate: Generate, rt: Runtime)
      returns (prompts: seq<string>, printed: seq<string>)
      ensures printed == Transcript(inputs, PrintedTurn(session, tools, sdk, generate, rt), 0)
      ensures prompts == Transcript(inputs, PromptTurn(session, tools, sdk, generate, rt), 0)
    {
      var printing := PrintedTurn(session, tools, sdk, generate, rt);
      var asking := PromptTurn(session, tools, sdk, generate, rt);
      prompts, printed := [], [];
      var i := 0;
      assert inputs[0..] == inputs;
      while i < |inputs|
        invariant i <= |inputs|
        invariant printed + Transcript(inputs[i..], printing, i) == Transcript(inputs, printing, 0)
        invariant prompts + Transcript(inputs[i..], asking, i) == Transcript(inputs, asking, 0)
      {
        var query := Strip(inputs[i]);
        if IsQuit(query) {
          assert printed + [] == printed && prompts + [] == prompts;
          return;
        }
        assert inputs[i..][1..] == inputs[i + 1..];
        var asked, shown := Turn(query, sdk, generate, rt);
        Regroup(printed, shown, Transcript(inputs[i + 1..], printing, i + 1));
        Regroup(prompts, asked, Transcript(inputs[i + 1..], asking, i + 1));
        printed := printed + shown;
        prompts := prompts + asked;
        i := i + 1;
      }
      assert printed + [] == printed && prompts + [] == prompts;
    }
  }
}
