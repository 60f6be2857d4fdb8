/** ResubmitErrorsAgent's `call_mcp_resubmit_errors`: it resolves the
    instance IDs (falling back to the state file), refuses to send a request
    without any, decodes the reply with the shared stage rules and, when
    the JSON body fell through, merges the job IDs it finds into the state
    file. */
module ResubmitErrors {
  import opened Wrappers
  import opened Json
  import opened Mcp
  import opened IdRules
  import opened SharedState
  import opened StageDecode

  const NoIdsMessage := "No instance IDs provided and no recent errors found in shared state."

  /** The IDs to resubmit: the given list when non-empty, else the stored
      list; any failure while reading the state is swallowed and leaves the
      given (empty) value in place. */
  function ResolveInstanceIds(given: Option<seq<string>>, doc: Option<Json>): (ids: Json)
    ensures Truthy(ListArg(given)) ==> ids == ListArg(given)
    ensures !Truthy(ListArg(given)) && doc.Some? && doc.value.JObj? && HasKey(doc.value.fields, InstanceIdsKey) ==>
              ids == Lookup(doc.value.fields, InstanceIdsKey).value
    ensures !Truthy(ListArg(given)) && (doc.None? || !doc.value.JObj? || !HasKey(doc.value.fields, InstanceIdsKey)) ==>
              !Truthy(ids)
  {
    if Truthy(ListArg(given)) then ListArg(given)
    else
      match doc
      case None => ListArg(given)
      case Some(state) =>
        match Get(state, InstanceIdsKey, JArr([]))
        case Raise(_) => ListArg(given)
        case Ok(stored) => stored
  }

  /** No request is built or sent when no IDs were resolved. */
  function Start(given: Option<seq<string>>, doc: Option<Json>, requestId: string): (s: Start)
    ensures s.Return? <==> !Truthy(ResolveInstanceIds(given, doc))
    ensures s.Return? ==> ErrorText(s.reply) == Some(NoIdsMessage)
    ensures s.Send? ==> s.request == ResubmitCall(requestId, ResolveInstanceIds(given, doc))
  {
    var ids := ResolveInstanceIds(given, doc);
    if !Truthy(ids) then Return(ErrorReply(NoIdsMessage)) else Send(ResubmitCall(requestId, ids))
  }

  /** Without given IDs and without a usable stored list the stage answers
      with the error and sends nothing. */
  lemma ShortCircuitWithoutIds(given: Option<seq<string>>, doc: Option<Json>, requestId: string)
    requires given.None? || given.value == []
    requires doc.None? || !doc.value.JObj? || !HasKey(doc.value.fields, InstanceIdsKey) ||
             !Truthy(Lookup(doc.value.fields, InstanceIdsKey).value)
    ensures Start(given, doc, requestId) == Return(ErrorReply(NoIdsMessage))
  {
  }

  /** Given IDs win over the stored ones and are sent as they are. */
  lemma GivenIdsSent(given: seq<string>, doc: Option<Json>, requestId: string)
    requires given != []
    ensures Start(Some(given), doc, requestId) == Send(ResubmitCall(requestId, ListArg(Some(given))))
  {
  }

  /** The job IDs of a decoded body: a dict's `jobId`, else its `id`, else
      its `items` with `jobId` before `id` per item; no nested
      `result.jobId` rule. */
  function JobIds(result: Json): (r: PyResult<seq<Json>>)
    ensures !result.JObj? ==> r == Ok([])
    ensures r.Ok? && r.value != [] ==>
              (result.JObj? &&
               (HasKey(result.fields, "jobId") || HasKey(result.fields, "id") || HasKey(result.fields, "items")))
  {
    if !result.JObj? then Ok([])
    else if HasKey(result.fields, "jobId") then Ok([Lookup(result.fields, "jobId").value])
    else if HasKey(result.fields, "id") then Ok([Lookup(result.fields, "id").value])
    else if HasKey(result.fields, "items") then
      match Elements(Lookup(result.fields, "items").value)
      case Raise(e) => Raise(e)
      case Ok(items) => IdsOf(items, "jobId", "id")
    else Ok([])
  }

  /** The priority of the job-ID rules on an object: `jobId` before `id`
      before the items, whose IDs are collected with `jobId` before `id`
      per item. */
  lemma JobIdPriority(fields: seq<(string, Json)>)
    ensures HasKey(fields, "jobId") ==> JobIds(JObj(fields)) == Ok([Lookup(fields, "jobId").value])
    ensures !HasKey(fields, "jobId") && HasKey(fields, "id") ==> JobIds(JObj(fields)) == Ok([Lookup(fields, "id").value])
    ensures !HasKey(fields, "jobId") && !HasKey(fields, "id") && HasKey(fields, "items") &&
            Lookup(fields, "items").value.JArr? ==>
              JobIds(JObj(fields)) == IdsOf(Lookup(fields, "items").value.elems, "jobId", "id")
    ensures !HasKey(fields, "jobId") && !HasKey(fields, "id") && !HasKey(fields, "items") ==> JobIds(JObj(fields)) == Ok([])
  {
  }

  /** Items that all carry `jobId` give their `jobId`s, in item order, even
      when they also carry `id`. */
  lemma ItemJobIdsPreferred(fields: seq<(string, Json)>, items: seq<Json>)
    requires !HasKey(fields, "jobId") && !HasKey(fields, "id") && Lookup(fields, "items") == Some(JArr(items))
    requires forall k :: 0 <= k < |items| ==> items[k].JObj? && HasKey(items[k].fields, "jobId")
    ensures JobIds(JObj(fields)).Ok? && |JobIds(JObj(fields)).value| == |items|
    ensures forall k :: 0 <= k < |items| ==> Some(JobIds(JObj(fields)).value[k]) == Lookup(items[k].fields, "jobId")
  {
    IdsOfPreferred(items, "jobId", "id");
  }

  /** The document written for a decoded body, if any. */
  function SavedDoc(doc: Option<Json>, result: Json): Option<Json> {
    match JobIds(result)
    case Raise(_) => None
    case Ok(ids) => if ids != [] then Merged(doc, JobIdsKey, ids) else None
  }

  /** The merge replaces the job-ID list with the non-empty list found and
      keeps every other key of the document as it was. */
  lemma MergeKeepsOtherKeys(doc: Option<Json>, result: Json)
    requires SavedDoc(doc, result).Some?
    ensures JobIds(result).Ok? && JobIds(result).value != []
    ensures SavedDoc(doc, result).value.JObj?
    ensures Lookup(SavedDoc(doc, result).value.fields, JobIdsKey) == Some(JArr(JobIds(result).value))
    ensures forall k :: k != JobIdsKey ==>
              Lookup(SavedDoc(doc, result).value.fields, k) == Lookup(doc.GetOr(JObj([])).fields, k)
  {
    MergedKeepsOtherKeys(doc, JobIdsKey, JobIds(result).value);
  }

  /** A missing file and an unparsable one both count as the empty
      document. */
  lemma MissingDocCountsAsEmpty(result: Json)
    ensures SavedDoc(None, result) == SavedDoc(Some(JObj([])), result)
  {
  }

  /** A JSON-RPC envelope without content parts falls through the text-part
      rules, and its top-level `id`, which is the request's own ID, is then
      saved as the recovery job ID. */
  lemma EnvelopeIdSavedAsJobId(url: string, ct: string, body: string, parse: Parser,
                               requestId: string, inner: seq<(string, Json)>)
    requires AcceptedContentType(ct)
    requires parse(body) == Some(JObj([("jsonrpc", JStr("2.0")), ("id", JStr(requestId)), ("result", JObj(inner))]))
    requires !HasKey(inner, "content")
    ensures StageDecision(url, Resp(ct, body), parse).Parsed?
    ensures SavedDoc(None, StageDecision(url, Resp(ct, body), parse).result) ==
            Some(JObj([(JobIdsKey, JArr([JStr(requestId)]))]))
  {
    var envelope := [("jsonrpc", JStr("2.0")), ("id", JStr(requestId)), ("result", JObj(inner))];
    LookupUnique(envelope, 0);
    LookupUnique(envelope, 1);
    LookupUnique(envelope, 2);
    HasKeyMember(envelope, "jobId");
    assert FirstText([]) == Ok(None);
    assert JsonBranch(JObj(envelope), parse) == Ok(None);
    assert JobIds(JObj(envelope)) == Ok([JStr(requestId)]);
    assert Put([], JobIdsKey, JArr([JStr(requestId)])) == [(JobIdsKey, JArr([JStr(requestId)]))];
  }

  /** The tool function. */
  method CallResubmitErrors(store: StateFile, given: Option<seq<string>>, explicitUrl: Option<string>,
                            env: Option<string>, requestId: string, outcome: HttpOutcome, parse: Parser)
    returns (request: Option<Json>, reply: Reply)
    modifies store
    ensures !reply.Raised?
    ensures var s := Start(given, old(store.doc), requestId);
            var d := StageDecision(ServerUrl(explicitUrl, env), outcome, parse);
            if s.Return? then
              request.None? && reply == s.reply && store.doc == old(store.doc)
            else
              request == Some(s.request) && reply == FinalReply(d) &&
              store.doc == if d.Parsed? && SavedDoc(old(store.doc), d.result).Some?
                           then SavedDoc(old(store.doc), d.result) else old(store.doc)
  {
    var s := Start(given, store.doc, requestId);
    if s.Return? {
      return None, s.reply;
    }
    request := Some(s.request);
    var url := ServerUrl(explicitUrl, env);
    var decision := StageDecision(url, outcome, parse);
    if decision.Parsed? {
      var jobIds := JobIds(decision.result);
      if jobIds.Ok? && jobIds.value != [] {
        var state := store.doc.GetOr(JObj([]));
        if state.JObj? {
          store.Write(JObj(Put(state.fields, JobIdsKey, JArr(jobIds.value))));
        }
      }
    }
    reply := FinalReply(decision);
  }
}
