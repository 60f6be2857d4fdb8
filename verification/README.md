# OICAgentOps agent tools, modelled in Dafny

OICAgentOps is a set of agents that watch Oracle Integration Cloud (OIC)
through an MCP monitoring server. This project models the deterministic
logic of their tool functions:

- MonitorErrorsAgent asks the server for errored instances and saves their
  IDs to the shared `shared_state.json` hand-off file.
- ResubmitErrorsAgent resubmits those instances, falling back to the saved
  IDs, and saves the recovery-job IDs it gets back.
- RecoveryJobAgent asks for the details of a recovery job, falling back to
  the first saved job ID.
- CoordinatorAgent has its own copies of the three tools. They share one
  request sender, `_send_mcp_request`, and one state writer,
  `_update_shared_state`.
- MonitorQueueRequestAgent renders a tool response as a text report
  (`format_structured_response`).

The modules follow the program:

| file | module | what it holds |
|---|---|---|
| `text.dfy` | `Text` | Python string operations: `startswith`, `in`, `split`, `strip`, `lower`, `str(int)` |
| `json.dfy` | `Wrappers`, `Json` | Option; JSON values as Python sees them (`in`, `.get`, `[k]`, `[0]`, iteration, truth, `json.loads`) |
| `mcp.dfy` | `Mcp`, `IdRules`, `SharedState` | transport outcomes and tool replies, the JSON-RPC `tools/call` requests, the per-item ID rule, the state file as a class |
| `stage_decode.dfy` | `StageDecode` | the response decoding the three stand-alone agents share |
| `monitor_errors.dfy`, `resubmit_errors.dfy`, `recovery_job.dfy` | one module per agent | argument resolution, the state hand-off, the tool function |
| `coordinator.dfy` | `Coordinator` | `_send_mcp_request`, `_update_shared_state` and the three Coordinator tools |
| `queue_report.dfy` | `QueueReport` | `format_structured_response`, as specification functions and as the source's loops |

Python's dynamic behaviour is written out. Most operations return
`PyResult<T>`: either `Ok(value)` or `Raise(exc)`, where `exc` is
`TypeError`, `AttributeError`, `KeyError` or `IndexError`. For example,
`x.get` on a list raises `AttributeError`, and `k in 5` raises `TypeError`.

A tool's return value is a `Reply`:

- `Verbatim(v)`: a text returned as it is;
- `Dumped(v)`: `json.dumps` of a value;
- `Raised(e)`: an exception that escapes the tool.

The state file is a `StateFile` object whose `doc` field is the parsed
document. `None` means the file is missing or does not parse. The tool
functions modify it in place.

The inputs from outside are parameters:

- `parse`: what `json.loads` makes of a text;
- `repr`: how a container is printed in an f-string;
- the HTTP outcome of the POST;
- the `MCP_SERVER_URL` environment variable;
- the request UUID.

Behaviours of the code that the lemmas make explicit:

- MonitorErrorsAgent overwrites the whole state file with only
  `last_errored_instance_ids`. ResubmitErrorsAgent and the Coordinator keep
  the other keys (`MonitorErrors.OverwriteDiscardsOtherKeys`,
  `ResubmitErrors.MergeKeepsOtherKeys`, `Coordinator.UpdateKeepsOtherKeys`).
- Take a JSON-RPC envelope without content parts. ResubmitErrorsAgent's
  `elif "id" in result` then finds the envelope's own `id`, which is the
  request UUID, and saves it as a recovery-job ID
  (`ResubmitErrors.EnvelopeIdSavedAsJobId`).
- The stand-alone agents' event-stream fallback never reaches its
  `except KeyError: continue`. The first `data: ` line that parses decides
  the reply, and an `AttributeError` on it becomes an error reply
  (`StageDecode.SseLineReply`, `StageDecode.StageScanFirstDataLine`).
- The Coordinator tests the lowered content type for `application/json`,
  but the test changes nothing. A body that parses is used either way
  (`Coordinator.ContentTypeIrrelevant`).
- The Coordinator and the stand-alone agents differ in how they read the
  state file. The Coordinator's read lets an `AttributeError` from a
  non-object document escape (`Coordinator.ResubmitShortCircuit`,
  `Coordinator.JobDetailsEscapes`). The stand-alone agents swallow it.

## Model

| member | source | states |
|---|---|---|
| Mcp.ServerUrl | Agents/MonitorErrorsAgent/agent.py:89-93 | an explicit non-empty URL is used; otherwise `MCP_SERVER_URL`, otherwise `http://localhost:3000` |
| Mcp.ListArg | Agents/ResubmitErrorsAgent/agent.py:81-97 | the list argument is truthy exactly when it is given and non-empty; its elements are the given strings |
| Mcp.StringArg | Agents/RecoveryJobAgent/agent.py:81-100 | the job-ID argument is truthy exactly when it is given and non-empty |
| Mcp.ToolCall | Agents/MonitorErrorsAgent/agent.py:98-111 | the request reads back as a JSON-RPC 2.0 `tools/call` with the given id, tool name and arguments |
| Mcp.ErroredInstancesCall | Agents/MonitorErrorsAgent/agent.py:98-111 | the request names `monitoringErroredInstances` and carries `q`, `orderBy`, `fields` and `return` as given |
| Mcp.ResubmitCall | Agents/ResubmitErrorsAgent/agent.py:108-119 | the request names `monitoringResubmitErroredInstances`, carries the IDs unchanged and `return: monitoringui` |
| Mcp.JobDetailsCall | Agents/RecoveryJobAgent/agent.py:111-121 | the request names `monitoringErrorRecoveryJobDetails` with exactly one argument, `id` |
| Mcp.IsTextPart | Agents/MonitorErrorsAgent/agent.py:141 | `item.get("type") == "text"` raises `AttributeError` exactly for a non-dict, else tests the `type` field |
| Mcp.ErrorReply | Agents/MonitorErrorsAgent/agent.py:206-217 | an error reply carries `isError: true` and the given message |
| IdRules.ItemId | Agents/MonitorErrorsAgent/agent.py:169-172 | for a dict item: the preferred field when present, else the fallback field, else nothing |
| IdRules.IdsOfConcat | Agents/CoordinatorAgent/agent.py:197-201 | IDs are collected in item order; collecting over `a + b` is collecting over `a` then `b`, and the first raise wins |
| IdRules.IdsOfPreferred | Agents/MonitorErrorsAgent/agent.py:168-172 | when every item is a dict with the preferred field, the result is that field of every item, in order |
| IdRules.IdsOfSkipsAndFallsBack | Agents/ResubmitErrorsAgent/agent.py:176-180 | an item with neither field adds nothing; one with only the fallback field adds that field |
| IdRules.CollectIds | Agents/MonitorErrorsAgent/agent.py:168-172 | the loop computes the IDs of `IdsOf`, including its exception |
| SharedState.MergedKeepsOtherKeys | Agents/ResubmitErrorsAgent/agent.py:183-198 | a read-modify-write sets its key to the new list and keeps every other key |
| SharedState.StateFile.Write | Agents/ResubmitErrorsAgent/agent.py:197-198 | `json.dump` replaces the whole document |
| StageDecode.FirstText | Agents/MonitorErrorsAgent/agent.py:140-141 | finds the first part whose `type` is `text`, with every part before it a non-text dict; a non-dict before any text part raises `AttributeError` |
| StageDecode.FirstTextAt | Agents/MonitorErrorsAgent/agent.py:140-141 | after a run of non-text dicts, the next text part is the one found |
| StageDecode.TextPartReply | Agents/MonitorErrorsAgent/agent.py:142-147 | a text that parses is returned verbatim, otherwise as `{"raw": text}`; a non-string text raises |
| StageDecode.PartsReply | Agents/MonitorErrorsAgent/agent.py:139-147 | the reply is the first text part's reply, or nothing when there is no text part |
| StageDecode.JsonBranch | Agents/MonitorErrorsAgent/agent.py:137-156 | a non-dict or a dict without `result`/`content` decides nothing; a dict `result` is answered through its `content` (default `[]`), else a top-level `content` is; a non-dict `result` raises `AttributeError`; a decided reply is never an exception |
| StageDecode.SseLineReply | Agents/MonitorErrorsAgent/agent.py:192-198 | never raises `KeyError`; a dict without `result`, or whose `result.content` has no text part, is answered with its dump; the first text part's `text` is returned unchecked; a non-dict `result` raises `AttributeError` |
| StageDecode.StageScan | Agents/MonitorErrorsAgent/agent.py:188-201 | a reply found by the event-stream scan is never an exception |
| StageDecode.StageScanFirstDataLine | Agents/MonitorErrorsAgent/agent.py:188-201 | the first `data: ` line that parses decides and later lines are not read; with none, nothing is found |
| StageDecode.StageDecision | Agents/MonitorErrorsAgent/agent.py:126-217 | a body is handed on for saving only when it parsed, and is handed on when the JSON branch decides nothing; an exception in the JSON branch becomes the generic error reply; an unaccepted content type is answered raw; a decided reply is never an exception |
| StageDecode.NonJsonBodyReply | Agents/MonitorErrorsAgent/agent.py:185-201 | a body that does not parse is answered by its first parsing `data: ` line (an exception there becomes the generic error), else as `{"raw": body}`; nothing is saved |
| StageDecode.TransportFailureReplies | Agents/MonitorErrorsAgent/agent.py:206-217 | transport failures become `isError` replies; only a connection error names the server |
| StageDecode.FirstTextPartDecides | Agents/MonitorErrorsAgent/agent.py:134-147 | a `{"result": {"content": parts}}` body is answered by its first text part, verbatim or as `{"raw": ...}` |
| StageDecode.ContentPartDecides | Agents/MonitorErrorsAgent/agent.py:147-156 | a dict with a top-level `content` and no `result` is answered by its first text part, verbatim or as `{"raw": ...}` |
| StageDecode.NoTextPartHandsOn | Agents/MonitorErrorsAgent/agent.py:136-158 | a JSON body in which no text part is found, under `result.content`, a top-level `content`, or neither, is handed on for saving |
| StageDecode.ResultNotObjectIsError | Agents/MonitorErrorsAgent/agent.py:137-217 | a body whose `result` is not a dict gets the generic `Error calling MCP server` reply |
| StageDecode.StageCallNeverRaises | Agents/MonitorErrorsAgent/agent.py:212-217 | once the request is sent, no exception escapes a stage call |
| MonitorErrors.InstanceIds | Agents/MonitorErrorsAgent/agent.py:158-172 | no IDs unless the body is a dict with top-level `items` |
| MonitorErrors.OverwriteDiscardsOtherKeys | Agents/MonitorErrorsAgent/agent.py:174-177 | the saved document holds `last_errored_instance_ids` and no other key |
| MonitorErrors.NestedItemsNotSaved | Agents/MonitorErrorsAgent/agent.py:160-166 | items nested under `result.content` are never saved |
| MonitorErrors.SavedIdsInItemOrder | Agents/MonitorErrorsAgent/agent.py:168-177 | with dict items that all carry `id`, the IDs are those, in item order |
| MonitorErrors.CallMonitoringErroredInstances | Agents/MonitorErrorsAgent/agent.py:66-217 | posts the request; the reply is the stage decision and never an exception; the state is overwritten only for a parsed body with IDs |
| ResubmitErrors.ResolveInstanceIds | Agents/ResubmitErrorsAgent/agent.py:80-91 | given IDs win; otherwise the stored list; a failed read leaves the empty argument |
| ResubmitErrors.Start | Agents/ResubmitErrorsAgent/agent.py:93-119 | no request without IDs, and then the "No instance IDs" error; otherwise the resubmit request |
| ResubmitErrors.ShortCircuitWithoutIds | Agents/ResubmitErrorsAgent/agent.py:81-97 | without given IDs and without a truthy stored list, the stage ends with the error and sends nothing |
| ResubmitErrors.GivenIdsSent | Agents/ResubmitErrorsAgent/agent.py:81-119 | non-empty given IDs are sent as they are, whatever is stored |
| ResubmitErrors.JobIds | Agents/ResubmitErrorsAgent/agent.py:166-180 | IDs come only from a dict with `jobId`, `id` or `items`; a non-dict gives none |
| ResubmitErrors.JobIdPriority | Agents/ResubmitErrorsAgent/agent.py:169-180 | `jobId` gives the one ID, else `id`, else the items' IDs with `jobId` before `id` per item; none of the three gives no ID |
| ResubmitErrors.ItemJobIdsPreferred | Agents/ResubmitErrorsAgent/agent.py:175-180 | items that all carry `jobId` give their `jobId`s in item order, whatever `id` they also carry |
| ResubmitErrors.MergeKeepsOtherKeys | Agents/ResubmitErrorsAgent/agent.py:182-198 | the save sets `last_recovery_job_ids` to the non-empty list found and keeps every other key |
| ResubmitErrors.MissingDocCountsAsEmpty | Agents/ResubmitErrorsAgent/agent.py:186-192 | a missing or unreadable file is treated as `{}` |
| ResubmitErrors.EnvelopeIdSavedAsJobId | Agents/ResubmitErrorsAgent/agent.py:145-173 | an envelope without content parts has its request UUID saved as the job ID |
| ResubmitErrors.CallResubmitErrors | Agents/ResubmitErrorsAgent/agent.py:66-238 | short-circuits without IDs; otherwise posts, decodes, and merges job IDs only for a parsed body; the reply is never an exception |
| RecoveryJob.ResolveJobId | Agents/RecoveryJobAgent/agent.py:80-94 | a given job ID wins; otherwise a non-empty stored list gives element 0, and a missing file, a non-dict document, a falsy stored value, or a stored dict, number or boolean (whose `[0]` raises and is swallowed) leaves the argument |
| RecoveryJob.FirstStoredJobUsed | Agents/RecoveryJobAgent/agent.py:87-90 | element 0 of the stored list is used and later elements never matter |
| RecoveryJob.Start | Agents/RecoveryJobAgent/agent.py:96-121 | no request without a job ID, and then the "No job ID" error; otherwise the job-details request |
| RecoveryJob.ShortCircuitWithoutJob | Agents/RecoveryJobAgent/agent.py:81-100 | an empty or missing stored list ends the stage with the error |
| RecoveryJob.CallRecoveryJobDetails | Agents/RecoveryJobAgent/agent.py:66-201 | short-circuits without a job ID; otherwise posts and decodes; the reply is never an exception; it never writes the state |
| Coordinator.ConnErrNamesServer | Agents/CoordinatorAgent/agent.py:148-153 | the connection error names the server URL, which is the endpoint cut at `/stream` |
| Coordinator.DataLine | Agents/CoordinatorAgent/agent.py:116-119 | a line yields a value exactly when, stripped, it starts with `data: ` and the rest parses |
| Coordinator.DataVerdict | Agents/CoordinatorAgent/agent.py:121-126 | a dict is taken exactly when it has `result` or its `id` is the request's ID; a dict never stops the scan |
| Coordinator.ClassifyLine | Agents/CoordinatorAgent/agent.py:115-128 | a line that is not a parsing `data: ` line is skipped; a taken value is the line's parsed value |
| Coordinator.ClassifyObjectLine | Agents/CoordinatorAgent/agent.py:117-126 | a `data: ` line holding a dict is taken exactly when the dict has `result` or the request's `id` |
| Coordinator.ScanSkipsPrefix | Agents/CoordinatorAgent/agent.py:115-128 | skipped lines change nothing: the scan starts at the first line not skipped |
| Coordinator.ScanTakesLine | Agents/CoordinatorAgent/agent.py:115-128 | after skipped lines, an accepted line is the result, and a stopping line or the end gives nothing |
| Coordinator.ScanIgnoresLater | Agents/CoordinatorAgent/agent.py:122-126 | once a line is taken (`break`), lines after it are ignored |
| Coordinator.ScanEventStream | Agents/CoordinatorAgent/agent.py:114-128 | the loop with its `break` computes the scan |
| Coordinator.ContentTypeIrrelevant | Agents/CoordinatorAgent/agent.py:93-131 | the decoded value does not depend on the content type: the parsed body, else the event-stream scan |
| Coordinator.DecodeBody | Agents/CoordinatorAgent/agent.py:93-131 | the decoding steps compute `result_json` |
| Coordinator.Unwrap | Agents/CoordinatorAgent/agent.py:134-139 | a falsy or missing value finds nothing; for a truthy dict the payload is its `result`, or the dict itself |
| Coordinator.TransportFailureReplies | Agents/CoordinatorAgent/agent.py:148-165 | a connection error, a timeout and any other failure each get their `isError` message and save nothing |
| Coordinator.SendNeverRaises | Agents/CoordinatorAgent/agent.py:148-165 | `_send_mcp_request` never lets an exception out |
| Coordinator.InnerResultReturned | Agents/CoordinatorAgent/agent.py:134-143 | a body with `result` is answered with `result`'s dump, and `result` is what is saved |
| Coordinator.FalsyBodyIsNothingFound | Agents/CoordinatorAgent/agent.py:104-146 | a body that parses to a falsy value (`{}`, `[]`, `0`, `""`, `null`) gives the raw fallback with the content type and saves nothing |
| Coordinator.NothingFoundIsRaw | Agents/CoordinatorAgent/agent.py:110-146 | a body that is not JSON and has no accepted event-stream line gives the raw fallback and saves nothing |
| Coordinator.EventStreamResult | Agents/CoordinatorAgent/agent.py:110-143 | a non-JSON body is answered from the first accepted event-stream line's `result` |
| Coordinator.TopLevelItemsUsed | Agents/CoordinatorAgent/agent.py:183-201 | non-empty top-level `items` give the IDs (`id` before `instanceId`) |
| Coordinator.NestedTextItemsUsed | Agents/CoordinatorAgent/agent.py:186-201 | without top-level items, the items in a text part under `result.content` give the IDs |
| Coordinator.OneTextPartExtends | Agents/CoordinatorAgent/agent.py:188-193 | a text part whose JSON has `items` extends the empty list by those items |
| Coordinator.ExtendItems | Agents/CoordinatorAgent/agent.py:188-195 | the `extend` loop computes `ExtendFromParts` |
| Coordinator.ExtendFromPartsStops | Agents/CoordinatorAgent/agent.py:188-195 | an exception in a part ends the loop: later parts are not read |
| Coordinator.ResubmitJobIdPriority | Agents/CoordinatorAgent/agent.py:207-218 | `jobId` before `id` before `result.jobId`, each giving one ID; without those, the `items` give their IDs with `jobId` before `id` per item, and with none of the four keys there are no IDs |
| Coordinator.UpdateKeepsOtherKeys | Agents/CoordinatorAgent/agent.py:168-226 | only the two tools write; the write sets the tool's key to a non-empty list and keeps every other key |
| Coordinator.MissingDocCountsAsEmpty | Agents/CoordinatorAgent/agent.py:170-179 | a missing or malformed state file counts as `{}` |
| Coordinator.UpdateSharedState | Agents/CoordinatorAgent/agent.py:168-230 | the file changes exactly when the update produces a document, and then to that document |
| Coordinator.SendMcpRequest | Agents/CoordinatorAgent/agent.py:68-165 | the reply is `SendReply` and the new state is `StateAfter` of the old one |
| Coordinator.CallMonitoringErroredInstances | Agents/CoordinatorAgent/agent.py:233-280 | posts the four query parameters to `<url>/stream`; reply and state as `_send_mcp_request` |
| Coordinator.ResolveInstanceIds | Agents/CoordinatorAgent/agent.py:297-306 | given IDs win; otherwise an object document gives its stored `last_errored_instance_ids` (default `[]`), a missing file leaves the argument, and a non-dict document raises, because only decoding and missing-file errors are caught |
| Coordinator.ResubmitStart | Agents/CoordinatorAgent/agent.py:298-333 | a request is sent exactly when resolution succeeds with truthy IDs, and it carries them |
| Coordinator.ResubmitShortCircuit | Agents/CoordinatorAgent/agent.py:297-312 | no file, or no stored IDs, gives the error; a non-dict document makes the tool raise `AttributeError` |
| Coordinator.CallResubmitErrors | Agents/CoordinatorAgent/agent.py:283-333 | short-circuits without IDs; otherwise posts and saves job IDs as `_update_shared_state` does |
| Coordinator.ResolveJobId | Agents/CoordinatorAgent/agent.py:350-361 | a given job ID wins; otherwise no file keeps the argument, a non-dict document raises `AttributeError`, a falsy stored value keeps the argument, a non-empty list gives element 0, and a truthy value that cannot be indexed raises |
| Coordinator.FirstStoredJobUsed | Agents/CoordinatorAgent/agent.py:357-359 | element 0 of a non-empty stored list is the job ID |
| Coordinator.JobDetailsStart | Agents/CoordinatorAgent/agent.py:363-387 | a request is sent exactly when a truthy job ID was resolved, and it carries it |
| Coordinator.JobDetailsShortCircuit | Agents/CoordinatorAgent/agent.py:350-367 | no file, or no stored job IDs, gives the "No job ID" error |
| Coordinator.JobDetailsEscapes | Agents/CoordinatorAgent/agent.py:350-361 | a non-dict document, or a truthy stored value that is a dict, number or boolean, makes the tool raise |
| Coordinator.CallRecoveryJobDetails | Agents/CoordinatorAgent/agent.py:336-387 | short-circuits without a job ID; otherwise posts; the state file is never changed |
| QueueReport.Field | Agents/MonitorQueueRequestAgent/agent.py:113 | `a or b` of two keys is truthy exactly when one of the values is |
| QueueReport.ErrorLinesListMessages | Agents/MonitorQueueRequestAgent/agent.py:61-64 | with dict parts, the error lines are one `ERROR MESSAGE:` line per text part, in order |
| QueueReport.ScanStep | Agents/MonitorQueueRequestAgent/agent.py:71-77 | a step ends in raw text only for a text part whose text does not parse |
| QueueReport.ShownText | Agents/MonitorQueueRequestAgent/agent.py:74 | the raw section prints the part's string `text`, or nothing when the part has no `text` |
| QueueReport.RawTextEndsScan | Agents/MonitorQueueRequestAgent/agent.py:71-77 | the first text that does not parse ends the scan with the raw section, whatever the parts after it hold |
| QueueReport.LastParseWins | Agents/MonitorQueueRequestAgent/agent.py:71-74 | when every text parses, the last text part's value is the one kept |
| QueueReport.NoTextKeepsParsed | Agents/MonitorQueueRequestAgent/agent.py:69-72 | parts without text leave the parsed value unchanged |
| QueueReport.SummaryOfObject | Agents/MonitorQueueRequestAgent/agent.py:89-100 | without the four keys the summary is just its heading; `hasMore` is shown as Yes/No by truth |
| QueueReport.MinutesOfMilliseconds | Agents/MonitorQueueRequestAgent/agent.py:154-155 | floor division by 1000 then by 60 is floor division by 60000 |
| QueueReport.DurationOfNumber | Agents/MonitorQueueRequestAgent/agent.py:152-156 | a numeric duration is shown as ms, whole seconds and whole minutes |
| QueueReport.InstanceBlock | Agents/MonitorQueueRequestAgent/agent.py:108-182 | a non-dict instance raises `AttributeError`; a dict's block fails only through its duration |
| QueueReport.CamelCaseFallback | Agents/MonitorQueueRequestAgent/agent.py:113-115 | a missing or falsy `instance-id` falls back to `instanceId` |
| QueueReport.TrackingValueDefaultsToNA | Agents/MonitorQueueRequestAgent/agent.py:159-162 | a primary-key name without a value is shown with `N/A` |
| QueueReport.NumberedSplit | Agents/MonitorQueueRequestAgent/agent.py:108 | numbered rendering splits anywhere, and the part after `k` items is numbered from `first + k` |
| QueueReport.NumberedPick | Agents/MonitorQueueRequestAgent/agent.py:108 | item `k` sits between the items before and after it, with number `first + k` |
| QueueReport.InstanceNumbering | Agents/MonitorQueueRequestAgent/agent.py:108-109 | instance `k` (from 0) is rendered as `Instance #k+1`, between the blocks before and after it |
| QueueReport.Report | Agents/MonitorQueueRequestAgent/agent.py:50-54 | every report starts with the banner header |
| QueueReport.ErrorReportIgnoresOtherKeys | Agents/MonitorQueueRequestAgent/agent.py:57-66 | with `isError` set, the report depends on the content only |
| QueueReport.ErrorReportLayout | Agents/MonitorQueueRequestAgent/agent.py:57-66 | the error report is header, `STATUS: ERROR`, a rule, the message lines and a blank line |
| QueueReport.RawTextReport | Agents/MonitorQueueRequestAgent/agent.py:69-77 | a text that does not parse gives exactly the raw section after the header |
| QueueReport.NoDataReport | Agents/MonitorQueueRequestAgent/agent.py:79-83 | when no text parses to a truthy value the report is the `NO DATA` section |
| QueueReport.NoInstancesReport | Agents/MonitorQueueRequestAgent/agent.py:102-194 | with `items` missing or falsy, the success report is its status line, the summary, the "No instances found" section and the footer |
| QueueReport.SuccessEndsWithFooter | Agents/MonitorQueueRequestAgent/agent.py:190-194 | a success report ends with the `END OF REPORT` footer |
| QueueReport.SuccessReportOfParts | Agents/MonitorQueueRequestAgent/agent.py:86-192 | the success report is its status line, the summary, the instances section and the footer, in that order |
| QueueReport.FormatStructuredResponse | Agents/MonitorQueueRequestAgent/agent.py:50-194 | the method computes `Report` |
| QueueReport.ErrorSection | Agents/MonitorQueueRequestAgent/agent.py:57-66 | the method computes the error body |
| QueueReport.ErrorMessagesLoop | Agents/MonitorQueueRequestAgent/agent.py:62-64 | the loop computes the error lines, including a non-dict part's `AttributeError` |
| QueueReport.ContentSection | Agents/MonitorQueueRequestAgent/agent.py:68-83 | the method computes the raw, no-data or success body |
| QueueReport.ContentScanLoop | Agents/MonitorQueueRequestAgent/agent.py:71-77 | the loop with its early return computes `ScanParts` |
| QueueReport.SuccessSection | Agents/MonitorQueueRequestAgent/agent.py:86-192 | the method computes the success report |
| QueueReport.InstancesLoop | Agents/MonitorQueueRequestAgent/agent.py:103-188 | the `enumerate(items, 1)` loop computes the instances section |

## Left out

- Networking is not modelled. `requests.post`, `raise_for_status` and the response object are one `HttpOutcome` parameter: a response (content type and body), a connection error, a timeout, or another failure with its text. `response.json()` is taken to agree with `json.loads(response.text)`.
- The exact texts of Python exceptions are not modelled. `str(e)` of a raised exception is a fixed text per exception kind. Failures that come from outside the code carry their text in the outcome.
- Floating-point numbers are left out. JSON numbers are integers, so a float duration, or a float count in the summary, is not modelled.
- JSON encoding and decoding are not modelled. `json.loads` is the `parse` parameter. `json.dumps` output is the `Dumped` value, not its text with `indent=2`. f-string printing of a list or dict is the `repr` parameter.
- `str.lower()` and `str.isspace()` are modelled for the characters the code meets: ASCII lowering and Python's whitespace set. Full Unicode case mapping is left out.
- Coordinator.ExtendItems: `items.extend(...)` in `_update_shared_state` mutates the list inside the decoded response, which `_send_mcp_request` then dumps. The model computes the extended list as a value. The effect of that aliasing on the returned JSON is not modelled, including a partial extension before an exception.
- File-system failures are left out. Opening, reading and writing `shared_state.json` always succeeds, except that a missing or unparsable file is the `None` document. The path is fixed.
- The MCP Python SDK path, `call_mcp_monitoring_instances`, `check_mcp_server_health` and the REST fallback are left out. They are asynchronous or network-only code with no local logic worth proving.
- Logging, module bootstrap and `load_dotenv` are left out. So are the agent personas and instructions, `start_a2a_servers.py`, the A2A servers and the test scripts. They hold no logic of the tools.
- The request UUID is a parameter (`uuid.uuid4()` is random), and `MCP_SERVER_URL` is a parameter (the environment).
- QueueReport.Report: the argument of `format_structured_response` is a dict, as its `Dict[str, Any]` annotation says. A list or other value that `response.json()` could return, for which `data.get` raises `AttributeError`, is not modelled.
- The default argument values of the tool functions (the query, order, fields and return format of `call_mcp_monitoring_errored_instances`) are not modelled: every call passes them explicitly.
- Concurrency is left out: several agents writing `shared_state.json` at once is outside this model.
