/** Decoded JSON values and the few Python operations the clients and servers apply to
    them: `key in x`, `x[key]`, `x.get(key, default)`, `len(x)`, truthiness and `str(x)`.
    Which exception Python raises is modelled exactly; the wording of a built-in
    exception's message is left to a `Runtime` parameter. */
module JsonValues {
  import opened Common

  /** A value as json.loads produces it. Objects are Python dicts: one value per key,
      the last one written wins. Floats are not modelled. */
  datatype Json =
    | JNull
    | JBool(b: bool)
    | JInt(i: int)
    | JStr(s: string)
    | JArr(items: seq<Json>)
    | JObj(fields: map<string, Json>)

  /** The exceptions the modelled code can raise, identified by their cause. */
  datatype Exn =
    | KeyError(key: Json)                            // d[k], k missing
    | IndexError                                     // l[i] / s[i] out of range
    | NotSubscriptable(typeName: string)             // 5["x"]
    | BadIndexType(typeName: string, keyType: string)  // [1]["x"], "ab"["x"]
    | Unhashable(typeName: string)                   // [1] in d
    | NotIterable(typeName: string)                  // for c in 5
    | NotContainer(typeName: string)                 // "x" in 5
    | NoAttribute(typeName: string, attr: string)    // [1].get(...)
    | NoLen(typeName: string)                        // len(5)
    | EvalArg(typeName: string)                      // eval([1])
    | Unsupported(op: string, left: string, right: string)  // None + "x"
    | ApiError(status: string, message: string)      // genai.errors.ClientError
    | ValueError(msg: string)                        // raised by the code itself
    | Raised(text: string)                           // raised by an external call

  /** What the interpreter supplies: the text of repr() for containers and of str(e)
      for a built-in exception. */
  datatype Runtime = Runtime(repr: Json -> string, builtinText: Exn -> string)

  /** str(e). */
  function ExnText(rt: Runtime, e: Exn): string
  {
    match e
    case ValueError(msg) => msg
    case Raised(text) => text
    case _ => rt.builtinText(e)
  }

  /** type(x).__name__ */
  function TypeName(j: Json): string
  {
    match j
    case JNull => "NoneType"
    case JBool(_) => "bool"
    case JInt(_) => "int"
    case JStr(_) => "str"
    case JArr(_) => "list"
    case JObj(_) => "dict"
  }

  /** str(x), as an f-string renders it. */
  function Str(rt: Runtime, j: Json): string
  {
    match j
    case JNull => "None"
    case JBool(b) => if b then "True" else "False"
    case JInt(i) => IntToDecimal(i)
    case JStr(s) => s
    case _ => rt.repr(j)
  }

  /** bool(x) */
  predicate Truthy(j: Json)
  {
    match j
    case JNull => false
    case JBool(b) => b
    case JInt(i) => i != 0
    case JStr(s) => s != []
    case JArr(items) => items != []
    case JObj(fields) => fields != map[]
  }

  predicate Hashable(j: Json)
  {
    !j.JArr? && !j.JObj?
  }

  /** `needle in x` for a string literal needle: a key test on a dict, an element test on
      a list, a substring test on a string; other types raise TypeError. */
  function In(needle: string, x: Json): (r: Result<bool, Exn>)
    ensures x.JObj? ==> r == Ok(needle in x.fields)
    ensures x.JArr? ==> r == Ok(JStr(needle) in x.items)
    ensures r.Err? <==> (x.JNull? || x.JBool? || x.JInt?)
  {
    match x
    case JObj(fields) => Ok(needle in fields)
    case JArr(items) => Ok(JStr(needle) in items)
    case JStr(s) => Ok(Contains(s, needle))
    case _ => Err(NotContainer(TypeName(x)))
  }

  /** x[key] */
  function Subscript(x: Json, key: Json): (r: Result<Json, Exn>)
    ensures x.JObj? && key.JStr? ==>
      r == (if key.s in x.fields then Ok(x.fields[key.s]) else Err(KeyError(key)))
    ensures x.JArr? && key.JStr? ==> r == Err(BadIndexType("list", "str"))
  {
    match x
    case JObj(fields) =>
      if !Hashable(key) then Err(Unhashable(TypeName(key)))
      else if key.JStr? && key.s in fields then Ok(fields[key.s])
      else Err(KeyError(key))
    case JArr(items) =>
      if key.JInt? || key.JBool? then
        var i := if key.JInt? then key.i else if key.b then 1 else 0;
        var k := if i < 0 then i + |items| else i;
        if 0 <= k < |items| then Ok(items[k]) else Err(IndexError)
      else Err(BadIndexType("list", TypeName(key)))
    case JStr(s) =>
      if key.JInt? || key.JBool? then
        var i := if key.JInt? then key.i else if key.b then 1 else 0;
        var k := if i < 0 then i + |s| else i;
        if 0 <= k < |s| then Ok(JStr([s[k]])) else Err(IndexError)
      else Err(BadIndexType("str", TypeName(key)))
    case _ => Err(NotSubscriptable(TypeName(x)))
  }

  /** x[name] for a string literal name. */
  function Field(x: Json, name: string): Result<Json, Exn>
  {
    Subscript(x, JStr(name))
  }

  /** x.get(key, default): only dicts have it. */
  function Get(x: Json, key: string, default: Json): (r: Result<Json, Exn>)
    ensures r.Err? <==> !x.JObj?
    ensures x.JObj? && key !in x.fields ==> r == Ok(default)
    ensures x.JObj? && key in x.fields ==> r == Ok(x.fields[key])
  {
    match x
    case JObj(fields) => Ok(if key in fields then fields[key] else default)
    case _ => Err(NoAttribute(TypeName(x), "get"))
  }

  /** len(x) */
  function Len(x: Json): (r: Result<nat, Exn>)
    ensures r.Ok? ==> (r.value > 0 <==> Truthy(x))
  {
    match x
    case JStr(s) => Ok(|s|)
    case JArr(items) => Ok(|items|)
    case JObj(fields) => Ok(|fields|)
    case _ => Err(NoLen(TypeName(x)))
  }
}
