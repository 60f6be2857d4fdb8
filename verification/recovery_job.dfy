/** RecoveryJobAgent's `call_mcp_recovery_job_details`: it resolves the job
    ID (falling back to the first stored job ID), refuses to send a request
    without one and decodes the reply with the shared stage rules. It only
    reads the state file. */
module RecoveryJob {
  import opened Wrappers
  import opened Json
  import opened Mcp
  import opened SharedState
  import opened StageDecode

  const NoJobMessage := "No job ID provided and no recent recovery jobs found in shared state."

  /** The job ID: the given one when non-empty, else element 0 of the
      stored list when that list is truthy; any failure while reading the
      state is swallowed and leaves the given (empty) value in place. */
  function ResolveJobId(given: Option<string>, doc: Option<Json>): (id: Json)
    ensures Truthy(StringArg(given)) ==> id == StringArg(given)
    ensures doc.None? ==> id == StringArg(given)
    ensures !Truthy(StringArg(given)) && doc.Some? && !doc.value.JObj? ==> id == StringArg(given)
    ensures !Truthy(StringArg(given)) && doc.Some? && doc.value.JObj? ==>
              var stored := Lookup(doc.value.fields, JobIdsKey).GetOr(JArr([]));
              (stored.JArr? && stored.elems != [] ==> id == stored.elems[0]) &&
              (!Truthy(stored) || stored.JObj? || stored.JNum? || stored.JBool? ==> id == StringArg(given))
  {
    if Truthy(StringArg(given)) then StringArg(given)
    else
      match doc
      case None => StringArg(given)
      case Some(state) =>
        match Get(state, JobIdsKey, JArr([]))
        case Raise(_) => StringArg(given)
        case Ok(jobs) =>
          if !Truthy(jobs) then StringArg(given)
          else
            match Index0(jobs)
            case Raise(_) => StringArg(given)
            case Ok(first) => first
  }

  /** Only element 0 of a stored list is consulted: the later ones never
      matter. */
  lemma FirstStoredJobUsed(given: Option<string>, fields: seq<(string, Json)>, jobs: seq<Json>)
    requires given.None? || given.value == []
    requires Lookup(fields, JobIdsKey) == Some(JArr(jobs)) && jobs != []
    ensures ResolveJobId(given, Some(JObj(fields))) == jobs[0]
    ensures forall later: seq<Json> :: ResolveJobId(given, Some(JObj(Put(fields, JobIdsKey, JArr([jobs[0]] + later))))) == jobs[0]
  {
    forall later: seq<Json>
      ensures ResolveJobId(given, Some(JObj(Put(fields, JobIdsKey, JArr([jobs[0]] + later))))) == jobs[0]
    {
      PutLookup(fields, JobIdsKey, JArr([jobs[0]] + later), JobIdsKey);
    }
  }

  /** No request is built or sent when no job ID was resolved. */
  function Start(given: Option<string>, doc: Option<Json>, requestId: string): (s: Start)
    ensures s.Return? <==> !Truthy(ResolveJobId(given, doc))
    ensures s.Return? ==> ErrorText(s.reply) == Some(NoJobMessage)
    ensures s.Send? ==> s.request == JobDetailsCall(requestId, ResolveJobId(given, doc))
  {
    var jobId := ResolveJobId(given, doc);
    if !Truthy(jobId) then Return(ErrorReply(NoJobMessage)) else Send(JobDetailsCall(requestId, jobId))
  }

  /** An empty stored list, or none at all, ends the stage with the error
      and no request. */
  lemma ShortCircuitWithoutJob(given: Option<string>, doc: Option<Json>, requestId: string)
    requires given.None? || given.value == []
    requires doc.None? || !doc.value.JObj? || !HasKey(doc.value.fields, JobIdsKey) ||
             Lookup(doc.value.fields, JobIdsKey) == Some(JArr([]))
    ensures Start(given, doc, requestId) == Return(ErrorReply(NoJobMessage))
  {
  }

  /** The tool function. It has no `modifies` clause: no path writes the
      state file. */
  method CallRecoveryJobDetails(store: StateFile, given: Option<string>, explicitUrl: Option<string>,
                                env: Option<string>, requestId: string, outcome: HttpOutcome, parse: Parser)
    returns (request: Option<Json>, reply: Reply)
    ensures !reply.Raised?
    ensures var s := Start(given, store.doc, requestId);
            if s.Return? then request.None? && reply == s.reply
            else request == Some(s.request) && reply == FinalReply(StageDecision(ServerUrl(explicitUrl, env), outcome, parse))
  {
    var s := Start(given, store.doc, requestId);
    if s.Return? {
      return None, s.reply;
    }
    request := Some(s.request);
    var url := ServerUrl(explicitUrl, env);
    reply := FinalReply(StageDecision(url, outcome, parse));
  }
}
