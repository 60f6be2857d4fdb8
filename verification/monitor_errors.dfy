/** MonitorErrorsAgent's `call_mcp_monitoring_errored_instances`: it asks
    the server for errored instances, decodes the reply with the shared
    stage rules and, when the JSON body fell through, overwrites the state
    file with the IDs of the top-level `items`. */
module MonitorErrors {
  import opened Wrappers
  import opened Json
  import opened Mcp
  import opened IdRules
  import opened SharedState
  import opened StageDecode

  /** The instance IDs saved for a decoded body: only a dict's top-level
      `items` are looked at, `id` before `instanceId`. */
  function InstanceIds(result: Json): (r: PyResult<seq<Json>>)
    ensures !result.JObj? || !HasKey(result.fields, "items") ==> r == Ok([])
  {
    if !result.JObj? || !HasKey(result.fields, "items") then Ok([])
    else
      match Elements(Lookup(result.fields, "items").value)
      case Raise(e) => Raise(e)
      case Ok(items) => IdsOf(items, "id", "instanceId")
  }

  /** The document written for a decoded body, if any: a fresh object that
      holds the IDs and nothing else, written only for a non-empty list. */
  function SavedDoc(result: Json): Option<Json> {
    match InstanceIds(result)
    case Raise(_) => None
    case Ok(ids) => if ids != [] then Some(JObj([(InstanceIdsKey, JArr(ids))])) else None
  }

  /** The write replaces the whole file: the new document holds the
      non-empty ID list under its key and no other key survives. */
  lemma OverwriteDiscardsOtherKeys(result: Json, k: string)
    requires SavedDoc(result).Some?
    ensures InstanceIds(result).Ok? && InstanceIds(result).value != []
    ensures SavedDoc(result).value.JObj?
    ensures Lookup(SavedDoc(result).value.fields, InstanceIdsKey) == Some(JArr(InstanceIds(result).value))
    ensures k != InstanceIdsKey ==> !HasKey(SavedDoc(result).value.fields, k)
  {
    var f := SavedDoc(result).value.fields;
    assert |f| == 1 && f[0].0 == InstanceIdsKey;
    assert f[..|f| - 1] == [];
    if k != InstanceIdsKey {
      assert Lookup(f, k) == Lookup(f[..|f| - 1], k);
    }
  }

  /** IDs nested under `result.content` are never saved: without top-level
      `items` nothing is written. */
  lemma NestedItemsNotSaved(fields: seq<(string, Json)>)
    requires !HasKey(fields, "items")
    ensures SavedDoc(JObj(fields)).None?
  {
  }

  /** With top-level `items` that are all dicts carrying `id`, the saved
      list is their `id`s in item order. */
  lemma SavedIdsInItemOrder(fields: seq<(string, Json)>, items: seq<Json>)
    requires Lookup(fields, "items") == Some(JArr(items))
    requires forall k :: 0 <= k < |items| ==> items[k].JObj? && HasKey(items[k].fields, "id")
    ensures InstanceIds(JObj(fields)).Ok?
    ensures |InstanceIds(JObj(fields)).value| == |items|
    ensures forall k :: 0 <= k < |items| ==> Some(InstanceIds(JObj(fields)).value[k]) == Lookup(items[k].fields, "id")
  {
    IdsOfPreferred(items, "id", "instanceId");
  }

  /** The tool function. The state is saved only when the JSON body fell
      through the text-part rules; a save that fails is ignored. */
  method CallMonitoringErroredInstances(store: StateFile, explicitUrl: Option<string>, env: Option<string>,
                                        requestId: string, q: string, orderBy: string, fields: string,
                                        returnFormat: string, outcome: HttpOutcome, parse: Parser)
    returns (request: Json, reply: Reply)
    modifies store
    ensures request == ErroredInstancesCall(requestId, q, orderBy, fields, returnFormat)
    ensures !reply.Raised?
    ensures var d := StageDecision(ServerUrl(explicitUrl, env), outcome, parse);
            reply == FinalReply(d) &&
            store.doc == if d.Parsed? && SavedDoc(d.result).Some? then SavedDoc(d.result) else old(store.doc)
  {
    request := ErroredInstancesCall(requestId, q, orderBy, fields, returnFormat);
    var url := ServerUrl(explicitUrl, env);
    var decision := StageDecision(url, outcome, parse);
    if decision.Parsed? {
      var result := decision.result;
      if result.JObj? && HasKey(result.fields, "items") {
        var items := Elements(Lookup(result.fields, "items").value);
        if items.Ok? {
          var ids := CollectIds(items.value, "id", "instanceId");
          if ids.Ok? && ids.value != [] {
            store.Write(JObj([(InstanceIdsKey, JArr(ids.value))]));
          }
        }
      }
    }
    reply := FinalReply(decision);
  }
}
