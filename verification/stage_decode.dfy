/** The response decoding that MonitorErrorsAgent, ResubmitErrorsAgent and
    RecoveryJobAgent share word for word: a content-type gate, the JSON branch
    that answers with the first `type == "text"` content part, the
    server-sent-events fallback that answers with the first parseable
    `data: ` line, and the error replies. What each agent does after the
    JSON branch falls through (saving IDs) stays in that agent's module. */
module StageDecode {
  import opened Wrappers
  import opened Text
  import opened Json
  import opened Mcp

  /** The position of the first text part of `parts`, as the loop
      `for item in content: if item.get("type") == "text": ...` finds it;
      an item that is not a dict before it raises. */
  function FirstText(parts: seq<Json>): (r: PyResult<Option<nat>>)
    ensures r.Ok? && r.value.Some? ==>
              r.value.value < |parts| && IsTextPart(parts[r.value.value]) == Ok(true) &&
              forall j :: 0 <= j < r.value.value ==> IsTextPart(parts[j]) == Ok(false)
    ensures r == Ok(None) <==> forall j :: 0 <= j < |parts| ==> IsTextPart(parts[j]) == Ok(false)
    ensures r.Raise? ==> r.exc == AttributeError
    ensures r.Raise? ==>
              exists j :: 0 <= j < |parts| && !parts[j].JObj? &&
                          forall i :: 0 <= i < j ==> IsTextPart(parts[i]) == Ok(false)
  {
    if parts == [] then Ok(None)
    else
      match IsTextPart(parts[0])
      case Raise(e) => Raise(e)
      case Ok(isText) =>
        if isText then Ok(Some(0))
        else
          match FirstText(parts[1..])
          case Raise(e) =>
            assert forall j :: 1 <= j < |parts| ==> parts[j] == parts[1..][j - 1];
            Raise(e)
          case Ok(found) =>
            assert forall j :: 1 <= j < |parts| ==> parts[j] == parts[1..][j - 1];
            if found.None? then Ok(None) else Ok(Some(found.value + 1))
  }

  /** The reply a text part decides in the JSON branch: the text itself when
      `json.loads` accepts it, `{"raw": text}` when it does not, `TypeError`
      when the text is not a string. */
  function TextPartReply(part: Json, parse: Parser): (r: PyResult<Reply>)
    requires part.JObj?
    ensures r.Raise? <==> !PartText(part).JStr?
    ensures r.Ok? ==> (r.value.Verbatim? <==> parse(PartText(part).s).Some?)
    ensures r.Ok? && r.value.Verbatim? ==> r.value.v == PartText(part)
    ensures r.Ok? && !r.value.Verbatim? ==> r.value == RawReply(PartText(part).s)
    ensures r.Ok? ==> !r.value.Raised?
  {
    var text := PartText(part);
    match Loads(text, parse)
    case Raise(e) => Raise(e)
    case Ok(parsed) => Ok(if parsed.Some? then Verbatim(text) else RawReply(text.s))
  }

  /** The loop over a `content` value: the reply of its first text part, or
      `None` when it has none. */
  function PartsReply(content: Json, parse: Parser): (r: PyResult<Option<Reply>>)
    ensures content.JArr? && FirstText(content.elems) == Ok(None) ==> r == Ok(None)
    ensures content.JArr? && FirstText(content.elems).Ok? && FirstText(content.elems).value.Some? ==>
              r == match TextPartReply(content.elems[FirstText(content.elems).value.value], parse)
                   case Raise(e) => Raise(e)
                   case Ok(rep) => Ok(Some(rep))
    ensures r.Ok? && r.value.Some? ==> !r.value.value.Raised?
  {
    match Elements(content)
    case Raise(e) => Raise(e)
    case Ok(parts) =>
      match FirstText(parts)
      case Raise(e) => Raise(e)
      case Ok(found) =>
        if found.None? then Ok(None)
        else
          match TextPartReply(parts[found.value], parse)
          case Raise(e) => Raise(e)
          case Ok(rep) => Ok(Some(rep))
  }

  /** The JSON branch for a decoded body: a dict with `result` looks at
      `result["result"].get("content", [])`, else a dict with `content` looks
      at `result["content"]`; `None` means no text part decided the reply. */
  function JsonBranch(result: Json, parse: Parser): (r: PyResult<Option<Reply>>)
    ensures !result.JObj? ==> r == Ok(None)
    ensures result.JObj? && !HasKey(result.fields, "result") && !HasKey(result.fields, "content") ==> r == Ok(None)
    ensures result.JObj? && HasKey(result.fields, "result") && !Lookup(result.fields, "result").value.JObj? ==>
              r == Raise(AttributeError)
    ensures result.JObj? && HasKey(result.fields, "result") && Lookup(result.fields, "result").value.JObj? ==>
              r == PartsReply(Lookup(Lookup(result.fields, "result").value.fields, "content").GetOr(JArr([])), parse)
    ensures result.JObj? && !HasKey(result.fields, "result") && HasKey(result.fields, "content") ==>
              r == PartsReply(Lookup(result.fields, "content").value, parse)
    ensures r.Ok? && r.value.Some? ==> !r.value.value.Raised?
  {
    if !result.JObj? then Ok(None)
    else if HasKey(result.fields, "result") then
      match Get(Lookup(result.fields, "result").value, "content", JArr([]))
      case Raise(e) => Raise(e)
      case Ok(content) => PartsReply(content, parse)
    else if HasKey(result.fields, "content") then
      PartsReply(Lookup(result.fields, "content").value, parse)
    else Ok(None)
  }

  /** The reply a parsed `data: ` line gives: the `text` of the first text
      part under `result` (returned unchecked), else the whole line's value
      re-serialised. It never raises `KeyError`, so the `except KeyError:
      continue` of the source never fires and every other exception ends
      the scan. */
  function SseLineReply(data: Json): (r: PyResult<Reply>)
    ensures r.Raise? ==> r.exc != KeyError
    ensures data.JObj? && !HasKey(data.fields, "result") ==> r == Ok(Dumped(data))
    ensures data.JObj? && HasKey(data.fields, "result") && !Lookup(data.fields, "result").value.JObj? ==>
              r == Raise(AttributeError)
    ensures data.JObj? && HasKey(data.fields, "result") && Lookup(data.fields, "result").value.JObj? ==>
              var content := Lookup(Lookup(data.fields, "result").value.fields, "content").GetOr(JArr([]));
              content.JArr? ==>
                (FirstText(content.elems) == Ok(None) ==> r == Ok(Dumped(data))) &&
                (FirstText(content.elems).Ok? && FirstText(content.elems).value.Some? ==>
                   r == Ok(Verbatim(PartText(content.elems[FirstText(content.elems).value.value]))))
    ensures r.Ok? ==> !r.value.Raised?
  {
    match In("result", data)
    case Raise(e) => Raise(e)
    case Ok(hasResult) =>
      if !hasResult then Ok(Dumped(data))
      else
        match Subscript(data, "result")
        case Raise(e) => Raise(e)
        case Ok(inner) =>
          match Get(inner, "content", JArr([]))
          case Raise(e) => Raise(e)
          case Ok(content) =>
            match Elements(content)
            case Raise(e) => Raise(e)
            case Ok(parts) =>
              match FirstText(parts)
              case Raise(e) => Raise(e)
              case Ok(found) =>
                if found.None? then Ok(Dumped(data))
                else Ok(Verbatim(PartText(parts[found.value])))
  }

  /** A line the event-stream fallback takes: it starts with `data: ` and
      the rest parses. */
  predicate IsDataLine(line: string, parse: Parser) {
    StartsWith(line, "data: ") && parse(line[6..]).Some?
  }

  /** The event-stream fallback over the body's lines, unstripped: the
      first data line decides; `None` when no line is a data line. */
  function StageScan(lines: seq<string>, parse: Parser): (r: PyResult<Option<Reply>>)
    ensures r.Ok? && r.value.Some? ==> !r.value.value.Raised?
  {
    if lines == [] then Ok(None)
    else if !IsDataLine(lines[0], parse) then StageScan(lines[1..], parse)
    else
      match SseLineReply(parse(lines[0][6..]).value)
      case Raise(e) => Raise(e)
      case Ok(rep) => Ok(Some(rep))
  }

  /** The first data line wins, and lines after it are never looked at;
      with no data line the scan finds nothing. */
  lemma {:induction false} StageScanFirstDataLine(lines: seq<string>, parse: Parser, i: nat)
    requires i <= |lines|
    requires forall j :: 0 <= j < i ==> !IsDataLine(lines[j], parse)
    ensures i == |lines| ==> StageScan(lines, parse) == Ok(None)
    ensures i < |lines| && IsDataLine(lines[i], parse) ==>
              StageScan(lines, parse) ==
                match SseLineReply(parse(lines[i][6..]).value)
                case Raise(e) => Raise(e)
                case Ok(rep) => Ok(Some(rep))
  {
    if i > 0 {
      assert !IsDataLine(lines[0], parse);
      StageScanFirstDataLine(lines[1..], parse, i - 1);
    }
  }

  /** The content types the stage agents decode; anything else is returned raw.
      The header is compared as sent, without lowering its case. */
  predicate AcceptedContentType(ct: string) {
    IsSubstring("text/event-stream", ct) || IsSubstring("application/json", ct)
  }

  function ConnErrMessage(url: string): string {
    "Cannot connect to OIC Monitor MCP server at " + url + ". Make sure the server is running."
  }

  /** How a stage call ends before any state is saved: with a reply, or with
      the decoded body when the JSON branch found no text part. */
  datatype Decision = Done(reply: Reply) | Parsed(result: Json)

  /** The decoding of one stage call. A timeout is not told apart from other
      failures here: it gets the generic message. */
  function StageDecision(url: string, outcome: HttpOutcome, parse: Parser): (d: Decision)
    ensures d.Parsed? ==> outcome.Resp? && parse(outcome.body) == Some(d.result)
    ensures outcome.Resp? && !AcceptedContentType(outcome.contentType) ==> d == Done(RawReply(outcome.body))
    ensures outcome.Resp? && AcceptedContentType(outcome.contentType) && parse(outcome.body).Some? ==>
              var branch := JsonBranch(parse(outcome.body).value, parse);
              (branch == Ok(None) ==> d == Parsed(parse(outcome.body).value)) &&
              (branch.Raise? ==> d == Done(ErrorReply(GenericErrorPrefix + ExcText(branch.exc))))
    ensures d.Done? ==> !d.reply.Raised?
  {
    match outcome
    case ConnErr => Done(ErrorReply(ConnErrMessage(url)))
    case Timeout(detail) => Done(ErrorReply(GenericErrorPrefix + detail))
    case Failed(detail) => Done(ErrorReply(GenericErrorPrefix + detail))
    case Resp(ct, body) =>
      if !AcceptedContentType(ct) then Done(RawReply(body))
      else
        match parse(body)
        case Some(result) =>
          (match JsonBranch(result, parse)
           case Raise(e) => Done(ErrorReply(GenericErrorPrefix + ExcText(e)))
           case Ok(early) =>
             if early.Some? then Done(early.value) else Parsed(result))
        case None =>
          match StageScan(Split(body, '\n'), parse)
          case Raise(e) => Done(ErrorReply(GenericErrorPrefix + ExcText(e)))
          case Ok(found) =>
            if found.Some? then Done(found.value) else Done(RawReply(body))
  }

  /** A body that is not JSON is read as an event stream: the first
      `data: ` line whose rest parses decides the reply (an exception from
      it becomes the generic error reply), and with no such line the whole
      body is answered as `{"raw": body}`. Nothing is handed on for saving. */
  lemma {:induction false} NonJsonBodyReply(url: string, ct: string, body: string, parse: Parser, i: nat)
    requires AcceptedContentType(ct) && parse(body).None?
    requires i <= |Split(body, '\n')|
    requires forall j :: 0 <= j < i ==> !IsDataLine(Split(body, '\n')[j], parse)
    ensures StageDecision(url, Resp(ct, body), parse).Done?
    ensures i == |Split(body, '\n')| ==> StageDecision(url, Resp(ct, body), parse) == Done(RawReply(body))
    ensures var lines := Split(body, '\n');
            i < |lines| && IsDataLine(lines[i], parse) ==>
              StageDecision(url, Resp(ct, body), parse) ==
                match SseLineReply(parse(lines[i][6..]).value)
                case Raise(e) => Done(ErrorReply(GenericErrorPrefix + ExcText(e)))
                case Ok(rep) => Done(rep)
  {
    StageScanFirstDataLine(Split(body, '\n'), parse, i);
  }

  /** A JSON body that is a dict with `content` but no `result` is answered
      by the first text part of that `content`. */
  lemma {:induction false} ContentPartDecides(url: string, ct: string, body: string, parse: Parser,
                                              envelope: seq<(string, Json)>, parts: seq<Json>, i: nat, text: string)
    requires AcceptedContentType(ct)
    requires parse(body) == Some(JObj(envelope))
    requires !HasKey(envelope, "result") && Lookup(envelope, "content") == Some(JArr(parts))
    requires i < |parts| && parts[i].JObj? && Lookup(parts[i].fields, "type") == Some(JStr("text"))
    requires Lookup(parts[i].fields, "text") == Some(JStr(text))
    requires forall j :: 0 <= j < i ==> parts[j].JObj? && Lookup(parts[j].fields, "type") != Some(JStr("text"))
    ensures StageDecision(url, Resp(ct, body), parse) ==
              Done(if parse(text).Some? then Verbatim(JStr(text)) else RawReply(text))
  {
    FirstTextAt(parts, i);
    assert TextPartReply(parts[i], parse).Ok?;
  }

  /** A JSON body in which no text part is found falls through: it is
      handed on for saving, whether its parts sit under `result.content`
      (missing `content` counts as empty), under a top-level `content`, or
      it has neither key. */
  lemma NoTextPartHandsOn(url: string, ct: string, body: string, parse: Parser,
                          envelope: seq<(string, Json)>, parts: seq<Json>)
    requires AcceptedContentType(ct)
    requires parse(body) == Some(JObj(envelope))
    requires forall j :: 0 <= j < |parts| ==> parts[j].JObj? && Lookup(parts[j].fields, "type") != Some(JStr("text"))
    ensures HasKey(envelope, "result") && Lookup(envelope, "result").value.JObj? &&
            Lookup(Lookup(envelope, "result").value.fields, "content").GetOr(JArr([])) == JArr(parts) ==>
              StageDecision(url, Resp(ct, body), parse) == Parsed(JObj(envelope))
    ensures !HasKey(envelope, "result") && Lookup(envelope, "content") == Some(JArr(parts)) ==>
              StageDecision(url, Resp(ct, body), parse) == Parsed(JObj(envelope))
    ensures !HasKey(envelope, "result") && !HasKey(envelope, "content") ==>
              StageDecision(url, Resp(ct, body), parse) == Parsed(JObj(envelope))
  {
    assert FirstText(parts) == Ok(None);
  }

  /** An exception in the JSON branch, such as `result` not being a dict,
      becomes the generic error reply and nothing is saved. */
  lemma ResultNotObjectIsError(url: string, ct: string, body: string, parse: Parser, envelope: seq<(string, Json)>)
    requires AcceptedContentType(ct)
    requires parse(body) == Some(JObj(envelope))
    requires HasKey(envelope, "result") && !Lookup(envelope, "result").value.JObj?
    ensures StageDecision(url, Resp(ct, body), parse) == Done(ErrorReply(GenericErrorPrefix + ExcText(AttributeError)))
  {
  }

  /** The reply of a stage call once its state saving (which never raises) is done. */
  function FinalReply(d: Decision): Reply {
    match d
    case Done(r) => r
    case Parsed(result) => Dumped(result)
  }

  /** Once the request is sent, no exception escapes a stage call: the
      source's `except Exception` turns every one into an error reply. */
  lemma StageCallNeverRaises(url: string, outcome: HttpOutcome, parse: Parser)
    ensures !FinalReply(StageDecision(url, outcome, parse)).Raised?
  {
  }

  /** Every transport failure is reported as `isError: true`, never raised;
      only a connection error names the server. */
  lemma TransportFailureReplies(url: string, outcome: HttpOutcome, parse: Parser)
    requires !outcome.Resp?
    ensures StageDecision(url, outcome, parse).Done?
    ensures outcome.ConnErr? ==> ErrorText(StageDecision(url, outcome, parse).reply) == Some(ConnErrMessage(url))
    ensures !outcome.ConnErr? ==>
              ErrorText(StageDecision(url, outcome, parse).reply) == Some(GenericErrorPrefix + outcome.detail)
  {
  }

  /** A JSON body wrapped as `{"result": {"content": parts}}` is answered by
      its first text part: the text itself when it parses, else
      `{"raw": text}`; parts after it are never looked at. */
  lemma {:induction false} FirstTextPartDecides(url: string, ct: string, body: string, parse: Parser,
                                                envelope: seq<(string, Json)>, inner: seq<(string, Json)>,
                                                parts: seq<Json>, i: nat, text: string)
    requires AcceptedContentType(ct)
    requires parse(body) == Some(JObj(envelope))
    requires Lookup(envelope, "result") == Some(JObj(inner))
    requires Lookup(inner, "content") == Some(JArr(parts))
    requires i < |parts| && parts[i].JObj? && Lookup(parts[i].fields, "type") == Some(JStr("text"))
    requires Lookup(parts[i].fields, "text") == Some(JStr(text))
    requires forall j :: 0 <= j < i ==> parts[j].JObj? && Lookup(parts[j].fields, "type") != Some(JStr("text"))
    ensures StageDecision(url, Resp(ct, body), parse) ==
              Done(if parse(text).Some? then Verbatim(JStr(text)) else RawReply(text))
  {
    FirstTextAt(parts, i);
    assert TextPartReply(parts[i], parse).Ok?;
  }

  /** `FirstText` finds the first text part after a run of other dicts. */
  lemma {:induction false} FirstTextAt(parts: seq<Json>, i: nat)
    requires i < |parts| && IsTextPart(parts[i]) == Ok(true)
    requires forall j :: 0 <= j < i ==> IsTextPart(parts[j]) == Ok(false)
    ensures FirstText(parts) == Ok(Some(i))
  {
    if i > 0 {
      FirstTextAt(parts[1..], i - 1);
    }
  }
}
