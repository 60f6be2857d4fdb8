/** The CoordinatorAgent's tool functions: `_send_mcp_request` (decoding,
    unwrapping `result`, error replies), `_update_shared_state` (the ID
    rules and the read-modify-write of the state file) and the three
    `call_mcp_*` functions that build the requests and resolve their
    arguments from the state file. */
module Coordinator {
  import opened Wrappers
  import opened Text
  import opened Json
  import opened Mcp
  import opened IdRules
  import opened SharedState

  const NoInstanceIdsMessage := "No instance IDs provided and no recent errors found in shared state."
  const NoJobIdMessage := "No job ID provided and no recent recovery jobs found in shared state."
  const TimeoutMessage := "Request to MCP server timed out. The server may be slow or unresponsive."
  const StreamPath := "/stream"

  /** The streamable-HTTP endpoint of a server. */
  function Endpoint(url: string): string {
    url + StreamPath
  }

  /** The connection-error message names the endpoint cut at its first `/stream`. */
  function ConnErrMessage(endpoint: string): string {
    "Cannot connect to OIC Monitor MCP server at " + BeforeFirst(endpoint, StreamPath) +
    ". Make sure the server is running and accessible."
  }

  /** For a server URL without `/stream` in it, the message names that URL. */
  lemma ConnErrNamesServer(url: string)
    requires !IsSubstring(StreamPath, url)
    ensures ConnErrMessage(Endpoint(url)) ==
            "Cannot connect to OIC Monitor MCP server at " + url + ". Make sure the server is running and accessible."
  {
    BeforeFirstAppend(url, StreamPath);
  }

  // ---- The event-stream scan

  /** What the scan does with one line: go on, take the line's value, or
      stop because evaluating the tests raised (the exception leaves the
      loop and is swallowed by the enclosing handler). */
  datatype LineVerdict = Skip | Accept(data: Json) | Stop

  /** The value of an event-stream `data: ` line: the line is stripped and
      the text after the prefix parsed; `None` for any other line. */
  function DataLine(line: string, parse: Parser): (d: Option<Json>)
    ensures d.Some? <==> StartsWith(Strip(line), "data: ") && parse(Strip(line)[6..]).Some?
    ensures d.Some? ==> parse(Strip(line)[6..]) == d
  {
    var l := Strip(line);
    if StartsWith(l, "data: ") then parse(l[6..]) else None
  }

  /** What the scan does with a parsed line: it takes a value that has
      `result`, or has `id` equal to the request's ID. */
  function DataVerdict(data: Json, requestId: string): (v: LineVerdict)
    ensures v.Accept? ==> v.data == data
    ensures data.JObj? ==> (v.Accept? <==> HasKey(data.fields, "result") || Lookup(data.fields, "id") == Some(JStr(requestId)))
    ensures data.JObj? ==> !v.Stop?
  {
    match In("result", data)
    case Raise(_) => Stop
    case Ok(hasResult) =>
      if hasResult then Accept(data)
      else if !In("id", data).value then Skip
      else
        match Get(data, "id", JNull)
        case Raise(_) => Stop
        case Ok(id) => if id == JStr(requestId) then Accept(data) else Skip
  }

  /** One turn of the scan. */
  function ClassifyLine(line: string, requestId: string, parse: Parser): (v: LineVerdict)
    ensures DataLine(line, parse).None? ==> v == Skip
    ensures v.Accept? ==> DataLine(line, parse) == Some(v.data)
  {
    match DataLine(line, parse)
    case None => Skip
    case Some(data) => DataVerdict(data, requestId)
  }

  /** The classification the scan applies to each line. */
  function Classifier(requestId: string, parse: Parser): string -> LineVerdict {
    line => ClassifyLine(line, requestId, parse)
  }

  /** A scan over lines with a given classification: the first line taken,
      or `None` when a line stops it or no line is taken. */
  function ScanLines(lines: seq<string>, classify: string -> LineVerdict): Option<Json> {
    if lines == [] then None
    else
      match classify(lines[0])
      case Skip => ScanLines(lines[1..], classify)
      case Accept(data) => Some(data)
      case Stop => None
  }

  /** Lines the scan skips are passed over: the scan from the first line
      is the scan from the first line not skipped. */
  lemma {:induction false} ScanSkipsPrefix(lines: seq<string>, classify: string -> LineVerdict, i: nat)
    requires i <= |lines|
    requires forall j :: 0 <= j < i ==> classify(lines[j]) == Skip
    ensures ScanLines(lines, classify) == ScanLines(lines[i..], classify)
  {
    if i > 0 {
      assert classify(lines[0]) == Skip;
      ScanSkipsPrefix(lines[1..], classify, i - 1);
      assert lines[1..][i - 1..] == lines[i..];
    }
  }

  /** The scan takes the first line that is not skipped when it is
      accepted, and finds nothing when that line stops it or no line is
      left. */
  lemma ScanTakesLine(lines: seq<string>, classify: string -> LineVerdict, i: nat)
    requires i <= |lines|
    requires forall j :: 0 <= j < i ==> classify(lines[j]) == Skip
    ensures i < |lines| && classify(lines[i]).Accept? ==> ScanLines(lines, classify) == Some(classify(lines[i]).data)
    ensures i < |lines| && classify(lines[i]).Stop? ==> ScanLines(lines, classify) == None
    ensures i == |lines| ==> ScanLines(lines, classify) == None
  {
    ScanSkipsPrefix(lines, classify, i);
    if i < |lines| {
      assert lines[i..][0] == lines[i];
    }
  }

  /** Whatever follows a decided scan is ignored. */
  lemma {:induction false} ScanIgnoresLater(lines: seq<string>, more: seq<string>, classify: string -> LineVerdict)
    requires ScanLines(lines, classify).Some?
    ensures ScanLines(lines + more, classify) == ScanLines(lines, classify)
  {
    if classify(lines[0]).Skip? {
      assert (lines + more)[1..] == lines[1..] + more;
      ScanIgnoresLater(lines[1..], more, classify);
    }
  }

  /** The scan loop of `_send_mcp_request`, with its `break`s. */
  method ScanEventStream(lines: seq<string>, classify: string -> LineVerdict) returns (found: Option<Json>)
    ensures found == ScanLines(lines, classify)
  {
    found := None;
    var i := 0;
    while i < |lines|
      invariant 0 <= i <= |lines|
      invariant forall j :: 0 <= j < i ==> classify(lines[j]) == Skip
    {
      var verdict := classify(lines[i]);
      if verdict.Accept? {
        found := Some(verdict.data);
        break;
      } else if verdict.Stop? {
        break;
      }
      i := i + 1;
    }
    ScanTakesLine(lines, classify, i);
  }

  // ---- Decoding

  /** `result_json` after the two attempts: `response.json()` when the
      lowered content type names JSON, and, when that gave nothing truthy,
      `json.loads` of the body and then the event-stream scan. */
  function ResultJson(contentType: string, body: string, requestId: string, parse: Parser): Option<Json> {
    var first := if IsSubstring("application/json", Lower(contentType)) then parse(body) else None;
    if first.Some? && Truthy(first.value) then first
    else if parse(body).Some? then parse(body)
    else ScanLines(Split(body, '\n'), Classifier(requestId, parse))
  }

  /** The content-type test changes nothing: a body that parses is used,
      and otherwise the scan decides. */
  lemma ContentTypeIrrelevant(contentType: string, body: string, requestId: string, parse: Parser)
    ensures ResultJson(contentType, body, requestId, parse) ==
            if parse(body).Some? then parse(body) else ScanLines(Split(body, '\n'), Classifier(requestId, parse))
  {
  }

  /** What was decoded: the payload (the `result` member of a truthy value
      that has one, else the value itself), nothing, or an exception raised
      while unwrapping. */
  datatype Decoded = Found(payload: Json) | NotFound | Failure(exc: Exc)

  /** `if result_json: final_result = result_json["result"] if "result" in result_json else result_json` */
  function Unwrap(resultJson: Option<Json>): (d: Decoded)
    ensures resultJson.None? || !Truthy(resultJson.value) ==> d == NotFound
    ensures resultJson.Some? && resultJson.value.JObj? && Truthy(resultJson.value) ==>
              d == Found(Lookup(resultJson.value.fields, "result").GetOr(resultJson.value))
  {
    if resultJson.None? || !Truthy(resultJson.value) then NotFound
    else
      var value := resultJson.value;
      match In("result", value)
      case Raise(e) => Failure(e)
      case Ok(hasResult) =>
        if !hasResult then Found(value)
        else
          match Subscript(value, "result")
          case Raise(e) => Failure(e)
          case Ok(inner) => Found(inner)
  }

  /** The fallback reply when nothing was decoded. */
  function RawFallback(body: string, contentType: string): Json {
    JObj([("raw", JStr(body)), ("content_type", JStr(Lower(contentType)))])
  }

  /** The reply `_send_mcp_request` returns. */
  function SendReply(endpoint: string, outcome: HttpOutcome, requestId: string, parse: Parser): Reply {
    match outcome
    case ConnErr => ErrorReply(ConnErrMessage(endpoint))
    case Timeout(_) => ErrorReply(TimeoutMessage)
    case Failed(detail) => ErrorReply(GenericErrorPrefix + detail)
    case Resp(ct, body) =>
      match Unwrap(ResultJson(ct, body, requestId, parse))
      case Found(payload) => Dumped(payload)
      case NotFound => Dumped(RawFallback(body, ct))
      case Failure(e) => ErrorReply(GenericErrorPrefix + ExcText(e))
  }

  /** The payload handed to `_update_shared_state`, if any. */
  function Payload(outcome: HttpOutcome, requestId: string, parse: Parser): Option<Json> {
    if outcome.Resp? && Unwrap(ResultJson(outcome.contentType, outcome.body, requestId, parse)).Found?
    then Some(Unwrap(ResultJson(outcome.contentType, outcome.body, requestId, parse)).payload)
    else None
  }

  /** A transport failure is always reported as `isError: true` and never
      raised; the timeout has its own message. */
  lemma TransportFailureReplies(endpoint: string, outcome: HttpOutcome, requestId: string, parse: Parser)
    requires !outcome.Resp?
    ensures ErrorText(SendReply(endpoint, outcome, requestId, parse)) ==
            Some(match outcome
                 case ConnErr => ConnErrMessage(endpoint)
                 case Timeout(_) => TimeoutMessage
                 case Failed(detail) => GenericErrorPrefix + detail)
    ensures Payload(outcome, requestId, parse).None?
  {
  }

  /** A decoded object with a top-level `result` yields that inner value, as
      the reply and as the payload for the state update. */
  lemma InnerResultReturned(ct: string, body: string, requestId: string, parse: Parser,
                            fields: seq<(string, Json)>, inner: Json)
    requires parse(body) == Some(JObj(fields))
    requires Lookup(fields, "result") == Some(inner)
    ensures SendReply("", Resp(ct, body), requestId, parse) == Dumped(inner)
    ensures Payload(Resp(ct, body), requestId, parse) == Some(inner)
  {
    assert fields != [];
  }

  /** `_send_mcp_request` never lets an exception out: every failure is
      an `isError` reply. */
  lemma SendNeverRaises(endpoint: string, outcome: HttpOutcome, requestId: string, parse: Parser)
    ensures !SendReply(endpoint, outcome, requestId, parse).Raised?
  {
  }

  /** A body that parses to a falsy value (`{}`, `[]`, `0`, `""`, `null`,
      `false`) counts as nothing found: the raw fallback is returned and the
      state is not touched. */
  lemma FalsyBodyIsNothingFound(endpoint: string, ct: string, body: string, requestId: string, parse: Parser)
    requires parse(body).Some? && !Truthy(parse(body).value)
    ensures SendReply(endpoint, Resp(ct, body), requestId, parse) == Dumped(RawFallback(body, ct))
    ensures Payload(Resp(ct, body), requestId, parse).None?
  {
  }

  /** A body that is not JSON and has no accepted event-stream line counts
      as nothing found: the raw fallback is returned and the state is not
      touched. */
  lemma NothingFoundIsRaw(endpoint: string, ct: string, body: string, requestId: string, parse: Parser)
    requires parse(body).None? && ScanLines(Split(body, '\n'), Classifier(requestId, parse)).None?
    ensures SendReply(endpoint, Resp(ct, body), requestId, parse) == Dumped(RawFallback(body, ct))
    ensures Payload(Resp(ct, body), requestId, parse).None?
  {
    ContentTypeIrrelevant(ct, body, requestId, parse);
    assert ResultJson(ct, body, requestId, parse).None?;
  }

  /** A body that is not JSON is answered from the first event-stream line
      whose value has `result`. */
  lemma EventStreamResult(ct: string, body: string, requestId: string, parse: Parser,
                          lines: seq<string>, i: nat, fields: seq<(string, Json)>, inner: Json)
    requires parse(body).None? && lines == Split(body, '\n')
    requires i < |lines| && forall j :: 0 <= j < i ==> ClassifyLine(lines[j], requestId, parse) == Skip
    requires StartsWith(Strip(lines[i]), "data: ") && parse(Strip(lines[i])[6..]) == Some(JObj(fields))
    requires Lookup(fields, "result") == Some(inner)
    ensures SendReply("", Resp(ct, body), requestId, parse) == Dumped(inner)
  {
    assert ClassifyLine(lines[i], requestId, parse) == Accept(JObj(fields)) by {
      ClassifyObjectLine(lines[i], requestId, parse, fields);
    }
    assert ScanLines(lines, Classifier(requestId, parse)) == Some(JObj(fields)) by {
      ScanTakesLine(lines, Classifier(requestId, parse), i);
    }
    assert ResultJson(ct, body, requestId, parse) == Some(JObj(fields));
    assert HasKey(fields, "result") && fields != [];
    assert In("result", JObj(fields)) == Ok(true);
    assert Subscript(JObj(fields), "result") == Ok(inner);
    assert Unwrap(Some(JObj(fields))) == Found(inner);
  }

  /** A `data: ` line holding an object is taken exactly when the object
      has `result` or its `id` is the request's ID. */
  lemma ClassifyObjectLine(line: string, requestId: string, parse: Parser, fields: seq<(string, Json)>)
    requires StartsWith(Strip(line), "data: ") && parse(Strip(line)[6..]) == Some(JObj(fields))
    ensures ClassifyLine(line, requestId, parse) ==
            if HasKey(fields, "result") || Lookup(fields, "id") == Some(JStr(requestId))
            then Accept(JObj(fields)) else Skip
  {
  }

  // ---- The state update

  /** One turn of the loop over `result["result"]["content"]`: a text part
      whose text parses to a value with `items` extends the list. */
  function ExtendStep(acc: Json, part: Json, parse: Parser): PyResult<Json> {
    match IsTextPart(part)
    case Raise(e) => Raise(e)
    case Ok(isText) =>
      if !isText then Ok(acc)
      else
        match Loads(PartText(part), parse)
        case Raise(e) => Raise(e)
        case Ok(parsed) =>
          if parsed.None? then Ok(acc)
          else
            match In("items", parsed.value)
            case Raise(e) => Raise(e)
            case Ok(hasItems) =>
              if !hasItems then Ok(acc)
              else if !acc.JArr? then Raise(AttributeError)  // only a list has `extend`
              else
                match Subscript(parsed.value, "items")
                case Raise(e) => Raise(e)
                case Ok(more) =>
                  match Elements(more)
                  case Raise(e) => Raise(e)
                  case Ok(extra) => Ok(JArr(acc.elems + extra))
  }

  /** The whole loop, as a fold over the parts. */
  function ExtendFromParts(items: Json, parts: seq<Json>, parse: Parser): PyResult<Json> {
    if parts == [] then Ok(items)
    else
      match ExtendFromParts(items, parts[..|parts| - 1], parse)
      case Raise(e) => Raise(e)
      case Ok(acc) => ExtendStep(acc, parts[|parts| - 1], parse)
  }

  /** The items whose IDs `monitoringErroredInstances` stores: `items` of
      the payload, or, when that is falsy, the items found in the text parts
      under `result.content`. */
  function ErroredItems(result: Json, parse: Parser): PyResult<Json> {
    match Get(result, "items", JArr([]))
    case Raise(e) => Raise(e)
    case Ok(items) =>
      if Truthy(items) || !HasKey(result.fields, "result") then Ok(items)
      else
        var inner := Lookup(result.fields, "result").value;
        match In("content", inner)
        case Raise(e) => Raise(e)
        case Ok(hasContent) =>
          if !hasContent then Ok(items)
          else
            match Subscript(inner, "content")
            case Raise(e) => Raise(e)
            case Ok(content) =>
              match Elements(content)
              case Raise(e) => Raise(e)
              case Ok(parts) => ExtendFromParts(items, parts, parse)
  }

  /** The instance IDs: `id` before `instanceId`, per item, in order. */
  function ErroredInstanceIds(result: Json, parse: Parser): PyResult<seq<Json>> {
    var items :- ErroredItems(result, parse);
    var elems :- Elements(items);
    IdsOf(elems, "id", "instanceId")
  }

  /** Top-level items are used as they are when there are some. */
  lemma TopLevelItemsUsed(fields: seq<(string, Json)>, items: seq<Json>, parse: Parser)
    requires Lookup(fields, "items") == Some(JArr(items)) && items != []
    ensures ErroredInstanceIds(JObj(fields), parse) == IdsOf(items, "id", "instanceId")
  {
  }

  /** Without top-level items, the items of a text part under
      `result.content` are used. */
  lemma NestedTextItemsUsed(fields: seq<(string, Json)>, inner: seq<(string, Json)>, part: Json,
                            text: string, found: seq<(string, Json)>, items: seq<Json>, parse: Parser)
    requires !HasKey(fields, "items")
    requires Lookup(fields, "result") == Some(JObj(inner))
    requires Lookup(inner, "content") == Some(JArr([part]))
    requires part.JObj? && IsTextPart(part) == Ok(true) && PartText(part) == JStr(text)
    requires parse(text) == Some(JObj(found)) && Lookup(found, "items") == Some(JArr(items))
    ensures ErroredInstanceIds(JObj(fields), parse) == IdsOf(items, "id", "instanceId")
  {
    OneTextPartExtends(part, text, found, items, parse);
    assert Get(JObj(fields), "items", JArr([])) == Ok(JArr([]));
    assert Elements(JArr([part])) == Ok([part]);
    assert ErroredItems(JObj(fields), parse) == Ok(JArr(items));
  }

  /** Extending the empty list with one text part that carries `items`
      yields those items. */
  lemma OneTextPartExtends(part: Json, text: string, found: seq<(string, Json)>, items: seq<Json>, parse: Parser)
    requires part.JObj? && IsTextPart(part) == Ok(true) && PartText(part) == JStr(text)
    requires parse(text) == Some(JObj(found)) && Lookup(found, "items") == Some(JArr(items))
    ensures ExtendFromParts(JArr([]), [part], parse) == Ok(JArr(items))
  {
    assert [part][..0] == [];
    assert found != [];
    assert [] + items == items;
    assert ExtendStep(JArr([]), part, parse) == Ok(JArr(items));
  }

  /** The job IDs `monitoringResubmitErroredInstances` stores: `jobId`,
      else `id`, else `result.jobId`, else the items (`jobId` before `id`). */
  function ResubmitJobIds(result: Json): PyResult<seq<Json>> {
    var hasJobId :- In("jobId", result);
    if hasJobId then
      var v :- Subscript(result, "jobId");
      Ok([v])
    else if In("id", result).value then
      var v :- Subscript(result, "id");
      Ok([v])
    else
      var nested :- NestedJobId(result);
      if nested.Some? then Ok([nested.value])
      else if In("items", result).value then
        var items :- Subscript(result, "items");
        var elems :- Elements(items);
        IdsOf(elems, "jobId", "id")
      else Ok([])
  }

  /** `"result" in result and "jobId" in result["result"]`, and the value
      it selects. */
  function NestedJobId(result: Json): PyResult<Option<Json>>
    requires In("result", result).Ok?
  {
    if !In("result", result).value then Ok(None)
    else
      match Subscript(result, "result")
      case Raise(e) => Raise(e)
      case Ok(inner) =>
        match In("jobId", inner)
        case Raise(e) => Raise(e)
        case Ok(has) =>
          if !has then Ok(None)
          else
            match Subscript(inner, "jobId")
            case Raise(e) => Raise(e)
            case Ok(v) => Ok(Some(v))
  }

  /** The priority of the job-ID rules on an object payload. */
  lemma ResubmitJobIdPriority(fields: seq<(string, Json)>)
    ensures HasKey(fields, "jobId") ==> ResubmitJobIds(JObj(fields)) == Ok([Lookup(fields, "jobId").value])
    ensures !HasKey(fields, "jobId") && HasKey(fields, "id") ==>
              ResubmitJobIds(JObj(fields)) == Ok([Lookup(fields, "id").value])
    ensures !HasKey(fields, "jobId") && !HasKey(fields, "id") && HasKey(fields, "result") &&
            Lookup(fields, "result").value.JObj? && HasKey(Lookup(fields, "result").value.fields, "jobId") ==>
              ResubmitJobIds(JObj(fields)) == Ok([Lookup(Lookup(fields, "result").value.fields, "jobId").value])
    ensures !HasKey(fields, "jobId") && !HasKey(fields, "id") &&
            (!HasKey(fields, "result") ||
             (Lookup(fields, "result").value.JObj? && !HasKey(Lookup(fields, "result").value.fields, "jobId"))) ==>
              (HasKey(fields, "items") && Lookup(fields, "items").value.JArr? ==>
                 ResubmitJobIds(JObj(fields)) == IdsOf(Lookup(fields, "items").value.elems, "jobId", "id")) &&
              (!HasKey(fields, "items") ==> ResubmitJobIds(JObj(fields)) == Ok([]))
  {
  }

  /** The IDs a tool's payload contributes, and the key they go under;
      `None` for a tool that writes nothing. */
  function ToolIds(tool: string, result: Json, parse: Parser): Option<(string, PyResult<seq<Json>>)> {
    if tool == ErroredInstancesTool then Some((InstanceIdsKey, ErroredInstanceIds(result, parse)))
    else if tool == ResubmitTool then Some((JobIdsKey, ResubmitJobIds(result)))
    else None
  }

  /** The document `_update_shared_state` writes, or `None` when it writes
      nothing: only a non-empty ID list is stored, and any exception is
      swallowed. */
  function UpdatedDoc(doc: Option<Json>, tool: string, result: Json, parse: Parser): Option<Json> {
    match ToolIds(tool, result, parse)
    case None => None
    case Some((key, ids)) =>
      if ids.Ok? && ids.value != [] then Merged(doc, key, ids.value) else None
  }

  /** A write sets only the tool's own key, to a non-empty list, and keeps
      every other key; other tools never write. */
  lemma UpdateKeepsOtherKeys(doc: Option<Json>, tool: string, result: Json, parse: Parser)
    requires UpdatedDoc(doc, tool, result, parse).Some?
    ensures tool == ErroredInstancesTool || tool == ResubmitTool
    ensures var key := if tool == ErroredInstancesTool then InstanceIdsKey else JobIdsKey;
            var ids := ToolIds(tool, result, parse).value.1;
            var d := UpdatedDoc(doc, tool, result, parse).value;
            ids.Ok? && ids.value != [] && d.JObj? &&
            Lookup(d.fields, key) == Some(JArr(ids.value)) &&
            forall k :: k != key ==> Lookup(d.fields, k) == Lookup(doc.GetOr(JObj([])).fields, k)
  {
    var (key, ids) := ToolIds(tool, result, parse).value;
    MergedKeepsOtherKeys(doc, key, ids.value);
  }

  /** A missing or malformed file is the empty document. */
  lemma MissingDocCountsAsEmpty(tool: string, result: Json, parse: Parser)
    ensures UpdatedDoc(None, tool, result, parse) == UpdatedDoc(Some(JObj([])), tool, result, parse)
  {
  }

  /** The state after a request: written when a payload was decoded and the
      update produced a document. */
  function StateAfter(doc: Option<Json>, tool: string, outcome: HttpOutcome, requestId: string,
                      parse: Parser): Option<Json> {
    match Payload(outcome, requestId, parse)
    case None => doc
    case Some(payload) =>
      var updated := UpdatedDoc(doc, tool, payload, parse);
      if updated.Some? then updated else doc
  }

  /** The loop extending the items with those of the text parts. */
  method ExtendItems(items: Json, parts: seq<Json>, parse: Parser) returns (r: PyResult<Json>)
    ensures r == ExtendFromParts(items, parts, parse)
  {
    var acc := items;
    var i := 0;
    while i < |parts|
      invariant 0 <= i <= |parts|
      invariant ExtendFromParts(items, parts[..i], parse) == Ok(acc)
    {
      assert parts[..i + 1][..i] == parts[..i];
      var step := ExtendStep(acc, parts[i], parse);
      if step.Raise? {
        ExtendFromPartsStops(items, parts, parse, i + 1);
        return step;
      }
      acc := step.value;
      i := i + 1;
    }
    assert parts[..i] == parts;
    r := Ok(acc);
  }

  /** Once the fold raises, it stays raised. */
  lemma {:induction false} ExtendFromPartsStops(items: Json, parts: seq<Json>, parse: Parser, n: nat)
    requires n <= |parts| && ExtendFromParts(items, parts[..n], parse).Raise?
    ensures ExtendFromParts(items, parts, parse) == ExtendFromParts(items, parts[..n], parse)
    decreases |parts| - n
  {
    if n < |parts| {
      assert parts[..n + 1][..n] == parts[..n];
      ExtendFromPartsStops(items, parts, parse, n + 1);
    } else {
      assert parts[..n] == parts;
    }
  }

  /** `_update_shared_state`: collects the IDs with the source's loops and
      writes the merged document when there are some. */
  method UpdateSharedState(store: StateFile, tool: string, result: Json, parse: Parser)
    modifies store
    ensures store.doc == if UpdatedDoc(old(store.doc), tool, result, parse).Some?
                         then UpdatedDoc(old(store.doc), tool, result, parse) else old(store.doc)
  {
    var key: string;
    var ids: PyResult<seq<Json>>;
    if tool == ErroredInstancesTool {
      key := InstanceIdsKey;
      var items := Get(result, "items", JArr([]));
      if items.Ok? && !Truthy(items.value) && HasKey(result.fields, "result") {
        var inner := Lookup(result.fields, "result").value;
        var hasContent := In("content", inner);
        if hasContent.Raise? {
          items := Raise(hasContent.exc);
        } else if hasContent.value {
          var content := Subscript(inner, "content");
          var parts := if content.Ok? then Elements(content.value) else Raise(content.exc);
          if parts.Ok? {
            items := ExtendItems(items.value, parts.value, parse);
          } else {
            items := Raise(parts.exc);
          }
        }
      }
      assert items == ErroredItems(result, parse);
      var elems := if items.Ok? then Elements(items.value) else Raise(items.exc);
      if elems.Ok? {
        ids := CollectIds(elems.value, "id", "instanceId");
      } else {
        ids := Raise(elems.exc);
      }
    } else if tool == ResubmitTool {
      key := JobIdsKey;
      ids := ResubmitJobIds(result);
    } else {
      return;
    }
    if ids.Ok? && ids.value != [] {
      var merged := Merged(store.doc, key, ids.value);
      if merged.Some? {
        store.Write(merged.value);
      }
    }
  }

  /** The two decoding attempts of `_send_mcp_request`, then its scan. */
  method DecodeBody(ct: string, body: string, requestId: string, parse: Parser) returns (resultJson: Option<Json>)
    ensures resultJson == ResultJson(ct, body, requestId, parse)
  {
    resultJson := None;
    if IsSubstring("application/json", Lower(ct)) {
      resultJson := parse(body);
    }
    if resultJson.None? || !Truthy(resultJson.value) {
      resultJson := parse(body);
      if resultJson.None? {
        var lines := Split(body, '\n');
        resultJson := ScanEventStream(lines, Classifier(requestId, parse));
      }
    }
  }

  /** `_send_mcp_request`: decodes the outcome with the source's two
      attempts and its scan loop, and updates the state with the payload. */
  method SendMcpRequest(store: StateFile, endpoint: string, outcome: HttpOutcome, requestId: string,
                        tool: string, parse: Parser) returns (reply: Reply)
    modifies store
    ensures reply == SendReply(endpoint, outcome, requestId, parse)
    ensures store.doc == StateAfter(old(store.doc), tool, outcome, requestId, parse)
  {
    match outcome
    case ConnErr =>
      reply := ErrorReply(ConnErrMessage(endpoint));
    case Timeout(_) =>
      reply := ErrorReply(TimeoutMessage);
    case Failed(detail) =>
      reply := ErrorReply(GenericErrorPrefix + detail);
    case Resp(ct, body) =>
      var resultJson := DecodeBody(ct, body, requestId, parse);
      match Unwrap(resultJson)
      case Found(payload) =>
        UpdateSharedState(store, tool, payload, parse);
        reply := Dumped(payload);
      case NotFound =>
        reply := Dumped(RawFallback(body, ct));
      case Failure(e) =>
        reply := ErrorReply(GenericErrorPrefix + ExcText(e));
  }

  /** `call_mcp_monitoring_errored_instances`: always sends its request. */
  method CallMonitoringErroredInstances(store: StateFile, explicitUrl: Option<string>, env: Option<string>,
                                        requestId: string, q: string, orderBy: string, fields: string,
                                        returnFormat: string, outcome: HttpOutcome, parse: Parser)
    returns (request: Json, reply: Reply)
    modifies store
    ensures request == ErroredInstancesCall(requestId, q, orderBy, fields, returnFormat)
    ensures reply == SendReply(Endpoint(ServerUrl(explicitUrl, env)), outcome, requestId, parse)
    ensures store.doc == StateAfter(old(store.doc), ErroredInstancesTool, outcome, requestId, parse)
  {
    request := ErroredInstancesCall(requestId, q, orderBy, fields, returnFormat);
    var endpoint := Endpoint(ServerUrl(explicitUrl, env));
    reply := SendMcpRequest(store, endpoint, outcome, requestId, ErroredInstancesTool, parse);
  }

  // ---- Argument resolution

  /** The IDs to resubmit: the given list when non-empty, else the stored
      list. A missing or malformed file is skipped, but a document that is
      not an object makes `state.get` raise out of the tool. */
  function ResolveInstanceIds(given: Option<seq<string>>, doc: Option<Json>): (r: PyResult<Json>)
    ensures r.Raise? <==> !Truthy(ListArg(given)) && doc.Some? && !doc.value.JObj?
    ensures Truthy(ListArg(given)) ==> r == Ok(ListArg(given))
    ensures !Truthy(ListArg(given)) && doc.None? ==> r == Ok(ListArg(given))
    ensures !Truthy(ListArg(given)) && doc.Some? && doc.value.JObj? ==>
              r == Ok(Lookup(doc.value.fields, InstanceIdsKey).GetOr(JArr([])))
  {
    if Truthy(ListArg(given)) then Ok(ListArg(given))
    else
      match doc
      case None => Ok(ListArg(given))
      case Some(state) => Get(state, InstanceIdsKey, JArr([]))
  }

  /** How `call_mcp_resubmit_errors` begins: no request without IDs. */
  function ResubmitStart(given: Option<seq<string>>, doc: Option<Json>, requestId: string): (s: Start)
    ensures s.Send? <==> ResolveInstanceIds(given, doc).Ok? && Truthy(ResolveInstanceIds(given, doc).value)
    ensures s.Send? ==> s.request == ResubmitCall(requestId, ResolveInstanceIds(given, doc).value)
  {
    match ResolveInstanceIds(given, doc)
    case Raise(e) => Return(Raised(e))
    case Ok(ids) =>
      if !Truthy(ids) then Return(ErrorReply(NoInstanceIdsMessage)) else Send(ResubmitCall(requestId, ids))
  }

  /** With no IDs given and none stored, the error is returned and nothing
      is sent; a stored document that is not an object raises instead. */
  lemma ResubmitShortCircuit(given: Option<seq<string>>, doc: Option<Json>, requestId: string)
    requires given.None? || given.value == []
    ensures doc.None? ==> ResubmitStart(given, doc, requestId) == Return(ErrorReply(NoInstanceIdsMessage))
    ensures doc.Some? && doc.value.JObj? && (!HasKey(doc.value.fields, InstanceIdsKey) ||
                                             !Truthy(Lookup(doc.value.fields, InstanceIdsKey).value)) ==>
              ResubmitStart(given, doc, requestId) == Return(ErrorReply(NoInstanceIdsMessage))
    ensures doc.Some? && !doc.value.JObj? ==> ResubmitStart(given, doc, requestId) == Return(Raised(AttributeError))
  {
  }

  /** The job ID: the given one when non-empty, else element 0 of the stored
      list when that is truthy; indexing failures raise out of the tool. */
  function ResolveJobId(given: Option<string>, doc: Option<Json>): (r: PyResult<Json>)
    ensures Truthy(StringArg(given)) ==> r == Ok(StringArg(given))
    ensures !Truthy(StringArg(given)) && doc.None? ==> r == Ok(StringArg(given))
    ensures !Truthy(StringArg(given)) && doc.Some? && !doc.value.JObj? ==> r == Raise(AttributeError)
    ensures !Truthy(StringArg(given)) && doc.Some? && doc.value.JObj? ==>
              var stored := Lookup(doc.value.fields, JobIdsKey).GetOr(JArr([]));
              (!Truthy(stored) ==> r == Ok(StringArg(given))) &&
              (stored.JArr? && stored.elems != [] ==> r == Ok(stored.elems[0])) &&
              (Truthy(stored) && !stored.JArr? && !stored.JStr? ==> r.Raise?)
  {
    if Truthy(StringArg(given)) then Ok(StringArg(given))
    else
      match doc
      case None => Ok(StringArg(given))
      case Some(state) =>
        match Get(state, JobIdsKey, JArr([]))
        case Raise(e) => Raise(e)
        case Ok(jobs) => if !Truthy(jobs) then Ok(StringArg(given)) else Index0(jobs)
  }

  /** Only element 0 of the stored list is used, whatever follows it. */
  lemma FirstStoredJobUsed(given: Option<string>, fields: seq<(string, Json)>, first: Json, later: seq<Json>)
    requires given.None? || given.value == []
    requires Lookup(fields, JobIdsKey) == Some(JArr([first] + later))
    ensures ResolveJobId(given, Some(JObj(fields))) == Ok(first)
  {
  }

  /** How `call_mcp_recovery_job_details` begins: no request without a job ID. */
  function JobDetailsStart(given: Option<string>, doc: Option<Json>, requestId: string): (s: Start)
    ensures s.Send? <==> ResolveJobId(given, doc).Ok? && Truthy(ResolveJobId(given, doc).value)
    ensures s.Send? ==> s.request == JobDetailsCall(requestId, ResolveJobId(given, doc).value)
  {
    match ResolveJobId(given, doc)
    case Raise(e) => Return(Raised(e))
    case Ok(jobId) =>
      if !Truthy(jobId) then Return(ErrorReply(NoJobIdMessage)) else Send(JobDetailsCall(requestId, jobId))
  }

  /** An empty stored list ends the call with the error and no request. */
  lemma JobDetailsShortCircuit(given: Option<string>, fields: seq<(string, Json)>, requestId: string)
    requires given.None? || given.value == []
    requires !HasKey(fields, JobIdsKey) || Lookup(fields, JobIdsKey) == Some(JArr([]))
    ensures JobDetailsStart(given, Some(JObj(fields)), requestId) == Return(ErrorReply(NoJobIdMessage))
    ensures JobDetailsStart(given, None, requestId) == Return(ErrorReply(NoJobIdMessage))
  {
  }

  /** Only missing-file and decoding errors are caught while reading the
      state: a document that is not an object, or a stored value that
      cannot be indexed, makes the tool raise. */
  lemma JobDetailsEscapes(given: Option<string>, doc: Json, requestId: string)
    requires given.None? || given.value == []
    ensures !doc.JObj? ==> JobDetailsStart(given, Some(doc), requestId) == Return(Raised(AttributeError))
    ensures doc.JObj? && HasKey(doc.fields, JobIdsKey) && Truthy(Lookup(doc.fields, JobIdsKey).value) &&
            (Lookup(doc.fields, JobIdsKey).value.JObj? || Lookup(doc.fields, JobIdsKey).value.JNum? ||
             Lookup(doc.fields, JobIdsKey).value.JBool?) ==>
              JobDetailsStart(given, Some(doc), requestId).Return? &&
              JobDetailsStart(given, Some(doc), requestId).reply.Raised?
  {
  }

  /** `call_mcp_resubmit_errors` */
  method CallResubmitErrors(store: StateFile, given: Option<seq<string>>, explicitUrl: Option<string>,
                            env: Option<string>, requestId: string, outcome: HttpOutcome, parse: Parser)
    returns (request: Option<Json>, reply: Reply)
    modifies store
    ensures var s := ResubmitStart(given, old(store.doc), requestId);
            if s.Return? then request.None? && reply == s.reply && store.doc == old(store.doc)
            else request == Some(s.request) &&
                 reply == SendReply(Endpoint(ServerUrl(explicitUrl, env)), outcome, requestId, parse) &&
                 store.doc == StateAfter(old(store.doc), ResubmitTool, outcome, requestId, parse)
  {
    var s := ResubmitStart(given, store.doc, requestId);
    if s.Return? {
      return None, s.reply;
    }
    request := Some(s.request);
    var endpoint := Endpoint(ServerUrl(explicitUrl, env));
    reply := SendMcpRequest(store, endpoint, outcome, requestId, ResubmitTool, parse);
  }

  /** `call_mcp_recovery_job_details`: its payload never changes the state,
      since the update only acts for the two other tools. */
  method CallRecoveryJobDetails(store: StateFile, given: Option<string>, explicitUrl: Option<string>,
                                env: Option<string>, requestId: string, outcome: HttpOutcome, parse: Parser)
    returns (request: Option<Json>, reply: Reply)
    modifies store
    ensures store.doc == old(store.doc)
    ensures var s := JobDetailsStart(given, old(store.doc), requestId);
            if s.Return? then request.None? && reply == s.reply
            else request == Some(s.request) &&
                 reply == SendReply(Endpoint(ServerUrl(explicitUrl, env)), outcome, requestId, parse)
  {
    var s := JobDetailsStart(given, store.doc, requestId);
    if s.Return? {
      return None, s.reply;
    }
    request := Some(s.request);
    var endpoint := Endpoint(ServerUrl(explicitUrl, env));
    reply := SendMcpRequest(store, endpoint, outcome, requestId, JobDetailsTool, parse);
  }
}
