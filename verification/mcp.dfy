/** The MCP transport as the agents see it: the JSON-RPC `tools/call`
    request they post, the outcome of the HTTP call, and the value a tool
    function hands back to its caller. */
module Mcp {
  import opened Wrappers
  import opened Json

  /** What `requests.post(...)` followed by `raise_for_status()` produced. */
  datatype HttpOutcome =
    | Resp(contentType: string, body: string)  // a 2xx response: its Content-Type header and text
    | ConnErr                                  // requests.exceptions.ConnectionError (connect timeouts included)
    | Timeout(detail: string)                  // requests.exceptions.Timeout while reading
    | Failed(detail: string)                   // any other exception, e.g. HTTPError from raise_for_status

  /** What a tool function returns: a value returned as it is (normally a
      string), `json.dumps(v)`, or an exception that escapes the function. */
  datatype Reply = Verbatim(v: Json) | Dumped(v: Json) | Raised(exc: Exc)

  /** How a stage begins: either it posts `request`, or it returns `reply`
      at once and no request is sent. */
  datatype Start = Send(request: Json) | Return(reply: Reply)

  /** A decoded `tools/call` request. */
  datatype ToolCallView = ToolCallView(id: string, name: string, arguments: seq<(string, Json)>)

  const DefaultServerUrl := "http://localhost:3000"
  const GenericErrorPrefix := "Error calling MCP server: "

  /** `mcp_server_url or os.environ.get("MCP_SERVER_URL", "http://localhost:3000")`;
      the environment variable is a parameter. */
  function ServerUrl(explicit: Option<string>, env: Option<string>): (url: string)
    ensures explicit.Some? && explicit.value != [] ==> url == explicit.value
    ensures explicit.None? || explicit.value == [] ==> url == env.GetOr(DefaultServerUrl)
  {
    if explicit.Some? && explicit.value != [] then explicit.value else env.GetOr(DefaultServerUrl)
  }

  /** The JSON value of an optional list-of-strings parameter (`None` or a list). */
  function ListArg(arg: Option<seq<string>>): (j: Json)
    ensures Truthy(j) <==> arg.Some? && arg.value != []
    ensures arg.Some? ==> j.JArr? && |j.elems| == |arg.value| &&
                          forall k :: 0 <= k < |arg.value| ==> j.elems[k] == JStr(arg.value[k])
  {
    match arg
    case None => JNull
    case Some(ids) => JArr(seq(|ids|, k requires 0 <= k < |ids| => JStr(ids[k])))
  }

  /** The JSON value of an optional string parameter (`None` or a string). */
  function StringArg(arg: Option<string>): (j: Json)
    ensures Truthy(j) <==> arg.Some? && arg.value != []
    ensures arg.Some? ==> j == JStr(arg.value)
  {
    match arg
    case None => JNull
    case Some(s) => JStr(s)
  }

  /** Reads a message back as a JSON-RPC 2.0 `tools/call` request. */
  function ReadToolCall(m: Json): Option<ToolCallView> {
    if !m.JObj? then None
    else
      var version := Lookup(m.fields, "jsonrpc");
      var rpcMethod := Lookup(m.fields, "method");
      var id := Lookup(m.fields, "id");
      var params := Lookup(m.fields, "params");
      if version != Some(JStr("2.0")) || rpcMethod != Some(JStr("tools/call")) then None
      else if id.None? || !id.value.JStr? || params.None? || !params.value.JObj? then None
      else
        var name := Lookup(params.value.fields, "name");
        var arguments := Lookup(params.value.fields, "arguments");
        if name.None? || !name.value.JStr? || arguments.None? || !arguments.value.JObj? then None
        else Some(ToolCallView(id.value.s, name.value.s, arguments.value.fields))
  }

  /** The request every agent posts: JSON-RPC 2.0, method `tools/call`, the
      tool name and its arguments under `params`. */
  function ToolCall(id: string, name: string, arguments: seq<(string, Json)>): (m: Json)
    ensures ReadToolCall(m) == Some(ToolCallView(id, name, arguments))
  {
    var pf := [("name", JStr(name)), ("arguments", JObj(arguments))];
    var mf := [("jsonrpc", JStr("2.0")), ("id", JStr(id)), ("method", JStr("tools/call")), ("params", JObj(pf))];
    LookupUnique(pf, 0);
    LookupUnique(pf, 1);
    LookupUnique(mf, 0);
    LookupUnique(mf, 1);
    LookupUnique(mf, 2);
    LookupUnique(mf, 3);
    JObj(mf)
  }

  const ErroredInstancesTool := "monitoringErroredInstances"
  const ResubmitTool := "monitoringResubmitErroredInstances"
  const JobDetailsTool := "monitoringErrorRecoveryJobDetails"

  /** The `monitoringErroredInstances` request: the four query parameters go
      through unchanged. */
  function ErroredInstancesCall(requestId: string, q: string, orderBy: string, fields: string,
                                returnFormat: string): (m: Json)
    ensures ReadToolCall(m).Some?
    ensures ReadToolCall(m).value.id == requestId && ReadToolCall(m).value.name == ErroredInstancesTool
    ensures var args := ReadToolCall(m).value.arguments;
            Lookup(args, "q") == Some(JStr(q)) && Lookup(args, "orderBy") == Some(JStr(orderBy)) &&
            Lookup(args, "fields") == Some(JStr(fields)) && Lookup(args, "return") == Some(JStr(returnFormat))
  {
    var args := [("q", JStr(q)), ("orderBy", JStr(orderBy)), ("fields", JStr(fields)), ("return", JStr(returnFormat))];
    LookupUnique(args, 0);
    LookupUnique(args, 1);
    LookupUnique(args, 2);
    LookupUnique(args, 3);
    ToolCall(requestId, ErroredInstancesTool, args)
  }

  /** The `monitoringResubmitErroredInstances` request: the IDs unchanged and
      `return: "monitoringui"`. */
  function ResubmitCall(requestId: string, ids: Json): (m: Json)
    ensures ReadToolCall(m).Some?
    ensures ReadToolCall(m).value.id == requestId && ReadToolCall(m).value.name == ResubmitTool
    ensures Lookup(ReadToolCall(m).value.arguments, "instanceIds") == Some(ids)
    ensures Lookup(ReadToolCall(m).value.arguments, "return") == Some(JStr("monitoringui"))
  {
    var args := [("instanceIds", ids), ("return", JStr("monitoringui"))];
    LookupUnique(args, 0);
    LookupUnique(args, 1);
    ToolCall(requestId, ResubmitTool, args)
  }

  /** The `monitoringErrorRecoveryJobDetails` request: arguments exactly
      `{"id": jobId}`. */
  function JobDetailsCall(requestId: string, jobId: Json): (m: Json)
    ensures ReadToolCall(m) == Some(ToolCallView(requestId, JobDetailsTool, [("id", jobId)]))
  {
    ToolCall(requestId, JobDetailsTool, [("id", jobId)])
  }

  /** `item.get("type") == "text"` for an MCP content part; only dicts have `get`. */
  function IsTextPart(item: Json): (r: PyResult<bool>)
    ensures r.Raise? <==> !item.JObj?
    ensures r.Raise? ==> r.exc == AttributeError
    ensures item.JObj? ==> r == Ok(Lookup(item.fields, "type") == Some(JStr("text")))
  {
    match Get(item, "type", JNull)
    case Raise(e) => Raise(e)
    case Ok(t) => Ok(t == JStr("text"))
  }

  /** `item.get("text", "{}")` */
  function PartText(part: Json): Json
    requires part.JObj?
  {
    Lookup(part.fields, "text").GetOr(JStr("{}"))
  }

  /** `json.dumps({"isError": True, "error": message})` */
  function ErrorReply(message: string): (r: Reply)
    ensures ErrorText(r) == Some(message)
  {
    var f := [("isError", JBool(true)), ("error", JStr(message))];
    LookupUnique(f, 0);
    LookupUnique(f, 1);
    Dumped(JObj(f))
  }

  /** The message of a reply that reports `isError: true`. */
  function ErrorText(r: Reply): Option<string> {
    if r.Dumped? && r.v.JObj? && Lookup(r.v.fields, "isError") == Some(JBool(true))
       && Lookup(r.v.fields, "error").Some? && Lookup(r.v.fields, "error").value.JStr?
    then Some(Lookup(r.v.fields, "error").value.s)
    else None
  }

  /** `str(e)` of an exception raised inside a tool; Python's exact wording
      is not modelled, only which exception it was. */
  function ExcText(e: Exc): string {
    match e
    case TypeError => "TypeError"
    case AttributeError => "AttributeError"
    case KeyError => "KeyError"
    case IndexError => "IndexError"
  }

  /** `json.dumps({"raw": text})` */
  function RawReply(text: string): Reply {
    Dumped(JObj([("raw", JStr(text))]))
  }
}

/** The ID-extraction rule every agent applies to a list of result items:
    take the preferred field when the item has it, else the fallback field,
    else skip the item. */
module IdRules {
  import opened Wrappers
  import opened Json

  /** `if p in item: item[p] elif f in item: item[f]`, with Python's
      behaviour on items that are not dicts. */
  function ItemId(item: Json, preferred: string, fallback: string): (r: PyResult<Option<Json>>)
    ensures item.JObj? ==> r == Ok(if HasKey(item.fields, preferred) then Lookup(item.fields, preferred)
                                   else Lookup(item.fields, fallback))
  {
    match In(preferred, item)
    case Raise(e) => Raise(e)
    case Ok(hasPreferred) =>
      if hasPreferred then
        match Subscript(item, preferred)
        case Raise(e) => Raise(e)
        case Ok(v) => Ok(Some(v))
      else if In(fallback, item).value then
        match Subscript(item, fallback)
        case Raise(e) => Raise(e)
        case Ok(v) => Ok(Some(v))
      else Ok(None)
  }

  /** The IDs collected by `for item in items: ... append(...)`, or the
      exception of the first item that raises. */
  function IdsOf(items: seq<Json>, preferred: string, fallback: string): PyResult<seq<Json>> {
    if items == [] then Ok([])
    else
      var before :- IdsOf(items[..|items| - 1], preferred, fallback);
      var id :- ItemId(items[|items| - 1], preferred, fallback);
      Ok(if id.Some? then before + [id.value] else before)
  }

  /** Collecting over two runs of items is collecting over each in turn:
      IDs come out in item order. */
  lemma {:induction false} IdsOfConcat(a: seq<Json>, b: seq<Json>, p: string, f: string)
    ensures IdsOf(a + b, p, f) ==
            match IdsOf(a, p, f)
            case Raise(e) => Raise(e)
            case Ok(ia) =>
              match IdsOf(b, p, f)
              case Raise(e) => Raise(e)
              case Ok(ib) => Ok(ia + ib)
  {
    if b == [] {
      assert a + b == a;
      match IdsOf(a, p, f)
      case Raise(_) =>
      case Ok(ia) => assert ia + [] == ia;
    } else {
      var b' := b[..|b| - 1];
      var last := b[|b| - 1];
      assert (a + b)[..|a + b| - 1] == a + b';
      assert (a + b)[|a + b| - 1] == last;
      IdsOfConcat(a, b', p, f);
      match IdsOf(a, p, f)
      case Raise(_) =>
      case Ok(ia) =>
        match IdsOf(b', p, f)
        case Raise(_) =>
        case Ok(ib') =>
          match ItemId(last, p, f)
          case Raise(_) =>
          case Ok(id) =>
            if id.Some? {
              assert ia + (ib' + [id.value]) == (ia + ib') + [id.value];
            }
    }
  }

  /** When every item is an object carrying the preferred field, the result
      is that field of every item, in item order. */
  lemma {:induction false} IdsOfPreferred(items: seq<Json>, p: string, f: string)
    requires forall k :: 0 <= k < |items| ==> items[k].JObj? && HasKey(items[k].fields, p)
    ensures IdsOf(items, p, f).Ok?
    ensures |IdsOf(items, p, f).value| == |items|
    ensures forall k :: 0 <= k < |items| ==> Some(IdsOf(items, p, f).value[k]) == Lookup(items[k].fields, p)
  {
    if items != [] {
      var init := items[..|items| - 1];
      IdsOfPreferred(init, p, f);
      var last := items[|items| - 1];
      assert ItemId(last, p, f) == Ok(Lookup(last.fields, p));
      var front := IdsOf(init, p, f).value;
      assert IdsOf(items, p, f) == Ok(front + [Lookup(last.fields, p).value]);
    }
  }

  /** An object carrying neither field adds nothing; one carrying the
      fallback field only adds that field. */
  lemma IdsOfSkipsAndFallsBack(items: seq<Json>, item: Json, p: string, f: string)
    requires item.JObj? && !HasKey(item.fields, p)
    ensures IdsOf(items + [item], p, f) ==
            match IdsOf(items, p, f)
            case Raise(e) => Raise(e)
            case Ok(ids) => Ok(if HasKey(item.fields, f) then ids + [Lookup(item.fields, f).value] else ids)
  {
    assert (items + [item])[..|items + [item]| - 1] == items;
  }

  /** The loop of the source: appends one ID per item that has one. */
  method CollectIds(items: seq<Json>, preferred: string, fallback: string) returns (r: PyResult<seq<Json>>)
    ensures r == IdsOf(items, preferred, fallback)
  {
    var ids: seq<Json> := [];
    var i := 0;
    while i < |items|
      invariant 0 <= i <= |items|
      invariant IdsOf(items[..i], preferred, fallback) == Ok(ids)
    {
      assert items[..i + 1][..i] == items[..i];
      var id := ItemId(items[i], preferred, fallback);
      if id.Raise? {
        IdsOfConcat(items[..i + 1], items[i + 1..], preferred, fallback);
        assert items[..i + 1] + items[i + 1..] == items;
        return Raise(id.exc);
      }
      if id.value.Some? {
        ids := ids + [id.value.value];
      }
      i := i + 1;
    }
    assert items[..i] == items;
    r := Ok(ids);
  }
}

/** The `shared_state.json` hand-off document, one in-memory value for the
    file: `None` when the file is missing or does not parse. */
module SharedState {
  import opened Wrappers
  import opened Json

  const InstanceIdsKey := "last_errored_instance_ids"
  const JobIdsKey := "last_recovery_job_ids"

  /** Read-modify-write: `state = <the file, or {} when it is missing or
      unparsable>; state[key] = ids`. `None` when the stored document is not
      an object: the assignment raises and nothing is written. */
  function Merged(doc: Option<Json>, key: string, ids: seq<Json>): Option<Json> {
    var state := doc.GetOr(JObj([]));
    if state.JObj? then Some(JObj(Put(state.fields, key, JArr(ids)))) else None
  }

  /** The merge sets `key` to the list and keeps every other key as it was. */
  lemma MergedKeepsOtherKeys(doc: Option<Json>, key: string, ids: seq<Json>)
    requires Merged(doc, key, ids).Some?
    ensures doc.GetOr(JObj([])).JObj? && Merged(doc, key, ids).value.JObj?
    ensures Lookup(Merged(doc, key, ids).value.fields, key) == Some(JArr(ids))
    ensures forall k :: k != key ==>
              Lookup(Merged(doc, key, ids).value.fields, k) == Lookup(doc.GetOr(JObj([])).fields, k)
  {
    var state := doc.GetOr(JObj([]));
    PutLookup(state.fields, key, JArr(ids), key);
    forall k | k != key
      ensures Lookup(Merged(doc, key, ids).value.fields, k) == Lookup(state.fields, k)
    {
      PutLookup(state.fields, key, JArr(ids), k);
    }
  }

  class StateFile {
    var doc: Option<Json>

    constructor (initial: Option<Json>)
      ensures doc == initial
    {
      doc := initial;
    }

    /** `json.dump(d, f)` over the whole file. */
    method Write(d: Json)
      modifies this
      ensures doc == Some(d)
    {
      doc := Some(d);
    }
  }
}
