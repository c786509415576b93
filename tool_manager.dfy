/** The Ollama tool registry as its tests describe it: a dict of registered tools, the
    tool specs handed to the model, and the execution of a call the model asks for. */
module ToolManager {
  import opened Common
  import opened JsonValues

  /** A registered tool's function: called with the tool's name and the arguments, it
      returns the result dict or raises. */
  type ToolFunction = (string, map<string, Json>) -> Result<Json, Exn>

  datatype OllamaTool = OllamaTool(name: string, description: string, fn: ToolFunction,
                                   properties: Json, required: Json)

  /** payload["function"]: the name and arguments of the call the model asks for. */
  datatype FunctionCall = FunctionCall(name: string, arguments: map<string, Json>)

  /** One element of get_tools. */
  function Spec(tool: OllamaTool): Json
  {
    JObj(map["type" := JStr("function"),
             "function" := JObj(map["name" := JStr(tool.name),
                                    "description" := JStr(tool.description),
                                    "properties" := tool.properties,
                                    "required" := tool.required])])
  }

  /** The spec a model reads: its type, and the tool's name, description, properties and
      required list under "function". */
  lemma SpecFields(tool: OllamaTool)
    ensures Field(Spec(tool), "type") == Ok(JStr("function"))
    ensures var f := Field(Spec(tool), "function");
      && f.Ok?
      && Field(f.value, "name") == Ok(JStr(tool.name))
      && Field(f.value, "description") == Ok(JStr(tool.description))
      && Field(f.value, "properties") == Ok(tool.properties)
      && Field(f.value, "required") == Ok(tool.required)
  {
  }

  const UnknownToolPrefix := "Unknown tool: "
  const ExecutionErrorText := "Error executing tool"

  /** The arguments a tool is invoked with: a missing `repo_path` is added. */
  function WithRepoPath(arguments: map<string, Json>, repoPath: string): (r: map<string, Json>)
    ensures "repo_path" in r
    ensures forall key :: key in arguments ==> key in r && r[key] == arguments[key]
    ensures forall key :: key in r && key != "repo_path" ==> key in arguments
  {
    if "repo_path" in arguments then arguments else arguments["repo_path" := JStr(repoPath)]
  }

  lemma WithRepoPathIdempotent(arguments: map<string, Json>, repoPath: string)
    ensures WithRepoPath(WithRepoPath(arguments, repoPath), repoPath)
            == WithRepoPath(arguments, repoPath)
  {
  }

  /** The result dict for a tool that raised. */
  function ExecutionError(name: string, e: Exn, rt: Runtime): (r: Json)
    ensures Field(r, "status") == Ok(JStr("error"))
    ensures Contains(FirstText(r), ExecutionErrorText)
  {
    var text := ExecutionErrorText + " " + name + ": " + ExnText(rt, e);
    assert OccursAt(text, ExecutionErrorText, 0);
    JObj(map["tool" := JStr(name), "content" := JArr([JObj(map["text" := JStr(text)])]),
             "status" := JStr("error")])
  }

  /** result["content"][0]["text"], or "" when the result does not have that shape. */
  function FirstText(result: Json): string
  {
    match Field(result, "content")
    case Ok(JArr(items)) =>
      if |items| > 0 then
        match Field(items[0], "text")
        case Ok(JStr(s)) => s
        case _ => ""
      else ""
    case _ => ""
  }

  /** What a registered tool's call gives: its own result, or the wrapped error. */
  function Invoked(tool: OllamaTool, call: FunctionCall, repoPath: string, rt: Runtime): Json
  {
    match tool.fn(call.name, WithRepoPath(call.arguments, repoPath))
    case Ok(result) => result
    case Err(e) => ExecutionError(call.name, e, rt)
  }

  /** A tool's failure never escapes: its result is returned as it is, and an exception
      becomes a result with status "error". */
  lemma InvokedCases(tool: OllamaTool, call: FunctionCall, repoPath: string, rt: Runtime)
    ensures var outcome := tool.fn(call.name, WithRepoPath(call.arguments, repoPath));
      && (outcome.Ok? ==> Invoked(tool, call, repoPath, rt) == outcome.value)
      && (outcome.Err? ==>
            Field(Invoked(tool, call, repoPath, rt), "status") == Ok(JStr("error"))
            && Contains(FirstText(Invoked(tool, call, repoPath, rt)), ExecutionErrorText))
  {
  }

  predicate Distinct(names: seq<string>)
  {
    forall i, j :: 0 <= i < j < |names| ==> names[i] != names[j]
  }

  lemma {:induction false} DistinctSize(names: seq<string>)
    requires Distinct(names)
    ensures |set n | n in names| == |names|
  {
    if |names| > 0 {
      var last := names[|names| - 1];
      var init := names[..|names| - 1];
      assert Distinct(init);
      DistinctSize(init);
      assert last !in init;
      assert (set n | n in names) == (set n | n in init) + {last};
    }
  }

  /** A duplicate-free order listing exactly the registered names has one entry per tool. */
  lemma OrderCountsTools(order: seq<string>, tools: map<string, OllamaTool>)
    requires Distinct(order)
    requires forall n :: n in order <==> n in tools
    ensures |order| == |tools|
  {
    DistinctSize(order);
    assert (set n | n in order) == tools.Keys;
  }

  /** The specs of the named tools, in the order given. */
  method SpecsOf(order: seq<string>, tools: map<string, OllamaTool>) returns (specs: seq<Json>)
    requires forall n :: n in order ==> n in tools
    ensures |specs| == |order|
    ensures forall k :: 0 <= k < |specs| ==> specs[k] == Spec(tools[order[k]])
  {
    specs := [];
    var i := 0;
    while i < |order|
      invariant 0 <= i <= |order|
      invariant |specs| == i
      invariant forall k :: 0 <= k < i ==> specs[k] == Spec(tools[order[k]])
    {
      specs := specs + [Spec(tools[order[i]])];
      i := i + 1;
    }
  }

  class OllamaToolManager {
    /** The registered tools by name. */
    var tools: map<string, OllamaTool>
    /** The dict's insertion order, which get_tools follows. */
    var order: seq<string>
    /** What execute_tool adds as `repo_path` when a call lacks it. */
    const repoPath: string

    ghost predicate Valid()
      reads this
    {
      && Distinct(order)
      && (forall n :: n in order <==> n in tools)
      && (forall n :: n in tools ==> tools[n].name == n)
    }

    /** A fresh manager has no tools. */
    constructor (repoPath: string)
      ensures Valid() && tools == map[] && order == [] && this.repoPath == repoPath
    {
      tools := map[];
      order := [];
      this.repoPath := repoPath;
    }

    /** register_tool: stores under `name` a tool whose properties and required list are
        those of its input schema. A new name adds one entry; an existing one is
        replaced in place. */
    method RegisterTool(name: string, fn: ToolFunction, description: string,
                        inputSchema: map<string, Json>)
      requires Valid()
      requires "properties" in inputSchema && "required" in inputSchema
      modifies this
      ensures Valid()
      ensures tools == old(tools)[name := OllamaTool(name, description, fn,
                                                     inputSchema["properties"],
                                                     inputSchema["required"])]
      ensures order == if name in old(tools) then old(order) else old(order) + [name]
      ensures |tools| == if name in old(tools) then old(|tools|) else old(|tools|) + 1
    {
      if name !in tools {
        order := order + [name];
      }
      tools := tools[name := OllamaTool(name, description, fn,
                                        inputSchema["properties"], inputSchema["required"])];
    }

    /** get_tools: one spec per registered tool, in registration order. */
    method GetTools() returns (specs: seq<Json>)
      requires Valid()
      ensures |specs| == |order| == |tools|
      ensures forall k :: 0 <= k < |specs| ==> order[k] in tools && specs[k] == Spec(tools[order[k]])
    {
      specs := SpecsOf(order, tools);
      OrderCountsTools(order, tools);
    }

    /** execute_tool: an unregistered name raises ValueError; a registered tool is called
        with `repo_path` filled in, and whatever it raises comes back as an error result. */
    method ExecuteTool(call: FunctionCall, rt: Runtime) returns (r: Result<Json, Exn>)
      requires Valid()
      ensures r.Err? <==> call.name !in tools
      ensures r.Err? ==> r.error == ValueError(UnknownToolPrefix + call.name)
      ensures r.Ok? ==> r.value == Invoked(tools[call.name], call, repoPath, rt)
    {
      if call.name !in tools {
        return Err(ValueError(UnknownToolPrefix + call.name));
      }
      var tool := tools[call.name];
      var outcome := tool.fn(call.name, WithRepoPath(call.arguments, repoPath));
      match outcome
      case Ok(result) => r := Ok(result);
      case Err(e) => r := Ok(ExecutionError(call.name, e, rt));
    }

    /** clear_tools */
    method ClearTools()
      modifies this
      ensures Valid() && tools == map[] && order == []
    {
      tools := map[];
      order := [];
    }
  }
}
