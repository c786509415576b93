/** The genai client of the repository's top-level client_geni.py: it keeps no tools,
    lists them from the session again for every query, and prints the text parts of the
    model's candidates. */
module GenaiRelistingClient {
  import opened Common
  import opened JsonValues
  import S = SessionClient
  import opened SdkClients

  /** The session's answers to list_tools, one per call: the k-th query makes the k-th
      call, so a server whose tools change between queries is covered. */
  type Listings = nat -> Result<seq<S.SdkTool>, Exn>

  /** The declarations process_query builds for the k-th query. */
  function Declarations(session: Option<S.ServerParams>, listings: Listings, k: nat)
    : Result<seq<ModelTool>, Exn>
  {
    if session.None? then Err(NoAttribute("NoneType", "list_tools"))
    else match listings(k)
      case Err(e) => Err(e)
      case Ok(tools) => CreateToolList(tools)
  }

  /** A request to the model: the prompt and the declarations sent with it. */
  datatype Request = Request(prompt: string, tools: seq<ModelTool>)

  /** What the k-th query prints: process_query, then print_candidates, or the error. */
  function Shown(session: Option<S.ServerParams>, listings: Listings, generate: Generate,
                 rt: Runtime, k: nat, query: string): seq<string>
  {
    match Declarations(session, listings, k)
    case Err(e) => Caught(rt, e)
    case Ok(tools) =>
      match generate(query, tools)
      case Err(e) => Caught(rt, e)
      case Ok(response) => TextCandidateLines(response.candidates, 1)
  }

  /** What the k-th query asks the model: once, with that query's own declarations, when
      they could be built. */
  function Asked(session: Option<S.ServerParams>, listings: Listings, k: nat, query: string)
    : (r: seq<Request>)
    ensures |r| <= 1
    ensures |r| == 1 <==> Declarations(session, listings, k).Ok?
    ensures |r| == 1 ==> r[0] == Request(query, Declarations(session, listings, k).value)
  {
    match Declarations(session, listings, k)
    case Err(_) => []
    case Ok(tools) => [Request(query, tools)]
  }

  function PrintedTurn(session: Option<S.ServerParams>, listings: Listings, generate: Generate,
                       rt: Runtime): Turn<string>
  {
    (k: nat, query: string) => Shown(session, listings, generate, rt, k, query)
  }

  function RequestTurn(session: Option<S.ServerParams>, listings: Listings): Turn<Request>
  {
    (k: nat, query: string) => Asked(session, listings, k, query)
  }

  predicate NoQuit(inputs: seq<string>)
  {
    forall j :: 0 <= j < |inputs| ==> !Quits(inputs[j])
  }

  predicate Listable(session: Option<S.ServerParams>, listings: Listings, from: nat, count: nat)
  {
    forall j :: from <= j < from + count ==> Declarations(session, listings, j).Ok?
  }

  /** Query j, counting from `from`, goes to the model with the declarations of the j-th
      listing. */
  predicate Relisted(requests: seq<Request>, inputs: seq<string>, session: Option<S.ServerParams>,
                     listings: Listings, from: nat)
    requires |requests| == |inputs| && Listable(session, listings, from, |inputs|)
  {
    forall j :: 0 <= j < |inputs| ==>
      requests[j] == Request(Strip(inputs[j]), Declarations(session, listings, from + j).value)
  }

  /** Tools are listed afresh for every query: while no listing fails, query j, for every
      j, goes to the model once, with the declarations of the j-th listing and not those
      of any earlier one. */
  lemma {:induction false} EveryQueryRelisted(inputs: seq<string>, session: Option<S.ServerParams>,
                                              listings: Listings, from: nat)
    requires NoQuit(inputs) && Listable(session, listings, from, |inputs|)
    ensures var requests := Transcript(inputs, RequestTurn(session, listings), from);
      |requests| == |inputs| && Relisted(requests, inputs, session, listings, from)
    decreases |inputs|
  {
    if |inputs| > 0 {
      assert !Quits(inputs[0]) && Declarations(session, listings, from).Ok?;
      var rest := inputs[1..];
      assert NoQuit(rest) by {
        forall j | 0 <= j < |rest| ensures !Quits(rest[j]) {
          assert rest[j] == inputs[j + 1];
        }
      }
      assert Listable(session, listings, from + 1, |rest|) by {
        forall j | from + 1 <= j < from + 1 + |rest|
          ensures Declarations(session, listings, j).Ok?
        {
          assert from <= j < from + |inputs|;
        }
      }
      EveryQueryRelisted(rest, session, listings, from + 1);
      var first := Asked(session, listings, from, Strip(inputs[0]));
      var later := Transcript(rest, RequestTurn(session, listings), from + 1);
      var requests := Transcript(inputs, RequestTurn(session, listings), from);
      assert requests == first + later;
      forall j | 0 <= j < |inputs|
        ensures requests[j] == Request(Strip(inputs[j]), Declarations(session, listings, from + j).value)
      {
        if j > 0 {
          assert requests[j] == later[j - 1];
          assert inputs[j] == rest[j - 1];
        }
      }
    }
  }

  class MCPClient {
    /** The script arguments the client was built with. */
    const serverScriptPath: seq<string>
    /** self.session */
    var session: Option<S.ServerParams>

    constructor (serverScriptPath: seq<string>)
      ensures this.serverScriptPath == serverScriptPath && session.None?
    {
      this.serverScriptPath := serverScriptPath;
      session := None;
    }

    /** connect_to_server: refuses the script or spawns its launcher, then enters and
        initialises the session. */
    method ConnectToServer(open: S.Opener) returns (raised: Option<Exn>)
      modifies this
      ensures var entered := Entered(serverScriptPath, open);
        session == (if entered.Some? then entered else old(session))
      ensures raised == ConnectRaised(serverScriptPath, open)
    {
      var launch := Launch(serverScriptPath);
      if launch.Err? {
        return Some(launch.error);
      }
      var opening := open(launch.value);
      if opening.SpawnRaised? {
        return Some(opening.error);
      }
      session := Some(launch.value);
      raised := Initialize(opening);
    }

    /** chat_loop over the given input lines: what it prints and what it asks the
        model, query after query until `quit`. */
    method ChatLoop(inputs: seq<string>, listings: Listings, generate: Generate, rt: Runtime)
      returns (requests: seq<Request>, printed: seq<string>)
      ensures printed == Transcript(inputs, PrintedTurn(session, listings, generate, rt), 0)
      ensures requests == Transcript(inputs, RequestTurn(session, listings), 0)
    {
      var current := session;
      var printing := PrintedTurn(current, listings, generate, rt);
      var asking := RequestTurn(current, listings);
      requests, printed := [], [];
      var i := 0;
      assert inputs[0..] == inputs;
      while i < |inputs|
        invariant i <= |inputs|
        invariant printed + Transcript(inputs[i..], printing, i) == Transcript(inputs, printing, 0)
        invariant requests + Transcript(inputs[i..], asking, i) == Transcript(inputs, asking, 0)
      {
        var query := Strip(inputs[i]);
        if IsQuit(query) {
          assert printed + [] == printed && requests + [] == requests;
          return;
        }
        var asked := Asked(current, listings, i, query);
        var shown := Shown(current, listings, generate, rt, i, query);
        assert asked == asking(i, query) && shown == printing(i, query);
        LoopStep(printed, inputs, printing, i);
        LoopStep(requests, inputs, asking, i);
        printed := printed + shown;
        requests := requests + asked;
        i := i + 1;
      }
      assert printed + [] == printed && requests + [] == requests;
    }
  }
}
