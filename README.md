# floweval backend core, modelled in Dafny

This project models the core of the floweval backend, a flow builder for
evaluating language-model applications. A flow is a graph of nodes, each
optionally naming an action. The backend orders the nodes topologically,
runs each action's handler over one shared context, and stops when a
handler asks the user to act (the golden review page). The modelled parts
are these:

- **The executor** (`FlowExecutor`). `TopoSort` is Kahn's algorithm over
  the node and edge lists, with the in-degree map, the adjacency map and the
  FIFO queue of the source. `ExecuteFlow` sorts, then runs the nodes in
  order. A node without an action is skipped. A node whose action has no
  handler gets an error result. A handler that raises gets an error result.
  The run stops after the first result whose `meta` asks for user action.
  Acyclicity is defined independently of the algorithm: no non-empty set
  of nodes has every member entered by an edge from inside the set (a
  "stuck" set). A closed walk always gives such a set.
- **The action registry** (`Actions.Registry`). It holds the definitions,
  their keys in Python's insertion order, and the handlers. It also gives
  the filtered lookup by node type.
- **The auth rules** (`Auth`):
  - bearer-header parsing;
  - memberships read from the token claims, merged with remote ones;
  - the default-workspace fallback;
  - the platform-admin rule;
  - the workspace-role gate.

  JWT decoding and the Supabase membership fetch are parameters.
- **The dataset handlers** (`DatasetActions`). The registry of datasets is
  the class `Datasets.DatasetStore`. Loading and uploading read it.
  Generating goldens calls the synthesizer wrapper and keeps only real
  goldens: a non-empty input that does not start with "Document from". It
  then replaces the stored dataset's goldens. The review handler pauses the
  flow, and the export handler publishes the reviewed goldens.
- **The synthesizer wrapper** (`Synthesizer`). It coerces the document
  paths, builds the context-construction settings and counts the goldens
  with and without an expected output. The DeepEval synthesizer itself is a
  parameter.
- **The DeepEval placeholder handler** (`DeepevalActions`). It coerces its
  parameters and builds a documents × contexts × goldens grid with ids of
  the form `<dataset>-<doc>-<context>-<golden>`.
- **The placeholder lead scorer** (`LeadScore`).

Python values the handlers pass around are the datatype `Values.Value`.
Truthiness, `or`, `dict.get`, `len`, hashability and `str()` follow
Python. Library calls the code makes are uninterpreted functions bundled in
`Values.Lib`:

- `json.loads` and `ast.literal_eval`;
- `str()` of a non-string;
- `int()`/`float()` of a string;
- `Path.name`;
- `pandas.read_csv`;
- the text of a raised exception.

Handlers are functions `(node, ctx) -> HandlerOutcome`. A
`HandlerOutcome` is the result returned, or the message raised, together
with the context the handler leaves behind.

Two counts mean different things. The `generated` count reported by the
golden generator is the synthesizer's total. The rows stored and put in the
context are only the kept ones (`GoldensOutputCounts`).

## Model

| member | source | states |
|---|---|---|
| FlowExecutor.Ids | backend/core/flow_executor.py:15-17 | the node ids, position by position |
| FlowExecutor.Targets | backend/core/flow_executor.py:19-20 | every adjacency entry of `u` is the target of an edge out of `u` |
| FlowExecutor.Dedup | backend/core/flow_executor.py:16 | the keys of the id-keyed map: each id once, nothing else |
| FlowExecutor.Frontier | backend/core/flow_executor.py:23 | the initial queue holds exactly the keys with in-degree 0, without repetition |
| FlowExecutor.IdToNode | backend/core/flow_executor.py:15 | `id_to_node` has exactly the node ids as keys, maps each id to a node with that id, and to the node itself when ids are distinct |
| FlowExecutor.InDegreeZero | backend/core/flow_executor.py:30-31 | a node's remaining in-degree is 0 exactly when every source of its edges has already been ordered |
| FlowExecutor.InDegreeStep | backend/core/flow_executor.py:29-30 | ordering `u` lowers each node's in-degree by the number of edges from `u` to it |
| FlowExecutor.ClosedWalkIsStuck | backend/core/flow_executor.py:34-35 | the nodes of a closed walk form a stuck set |
| FlowExecutor.ClosedWalkNotAcyclic | backend/core/flow_executor.py:34-35 | a graph with a closed walk (a cycle such as first→second→first) is not acyclic |
| FlowExecutor.OrderedSetNotStuck | backend/core/flow_executor.py:26-32 | no set of nodes that Kahn's order emitted can be stuck |
| FlowExecutor.AddEdgeKeeps | backend/core/flow_executor.py:19-21 | counting one more edge keeps the maps equal to the in-degrees and adjacency lists of the edges seen |
| FlowExecutor.EmptyGraph | backend/core/flow_executor.py:15-17 | the maps start with every node id, in-degree 0 and no targets |
| FlowExecutor.BuildGraph | backend/core/flow_executor.py:19-21 | the maps are built exactly when every edge names known nodes, and then hold the in-degrees and adjacency lists; otherwise the first unknown id is reported |
| FlowExecutor.InitialQueue | backend/core/flow_executor.py:23 | the queue is the zero-in-degree keys in map order |
| FlowExecutor.DecrementKeeps | backend/core/flow_executor.py:30-32 | one decrement keeps the queue invariant and enqueues a target exactly when its count reaches 0 |
| FlowExecutor.Relaxed | backend/core/flow_executor.py:29-32 | relaxing a node's targets only appends to the queue and keeps the in-degree map's keys |
| FlowExecutor.KahnRun | backend/core/flow_executor.py:26-32 | the loop's order as a function: it extends the order so far by at most one node per turn, and stops on an empty queue |
| FlowExecutor.KahnOrder | backend/core/flow_executor.py:14-32 | the order Kahn's loop gives a flow: never longer than its set of node ids |
| FlowExecutor.RelaxedKeeps | backend/core/flow_executor.py:29-32 | relaxing all targets of the ordered node brings every count down to the in-degree left by the order, and keeps the queue invariant |
| FlowExecutor.Relax | backend/core/flow_executor.py:29-32 | the inner loop gives exactly the maps and queue of `Relaxed`; it keeps the invariant and only appends to the queue |
| FlowExecutor.KahnTurn | backend/core/flow_executor.py:27-32 | one turn pops the queue's head onto the order and keeps the invariant; the rest of the run from the new state gives the same order |
| FlowExecutor.PopKeeps | backend/core/flow_executor.py:27-28 | popping the queue head keeps the invariant, and the popped node has all its sources ordered |
| FlowExecutor.Kahn | backend/core/flow_executor.py:26-32 | the loop orders nodes without repetition, each after all its sources; every node left out still has an unordered source; the initial queue is a prefix; the order is exactly `KahnRun`'s: first in, first out, each node's targets in edge order |
| FlowExecutor.GraphIsReference | backend/core/flow_executor.py:15-21 | the maps the edge loop builds are the reference graph of the ids and edges |
| FlowExecutor.SortIsReference | backend/core/flow_executor.py:14-32 | the loop run on the built maps gives `KahnOrder` of the flow |
| FlowExecutor.FanOutOrder | backend/core/flow_executor.py:19-32 | a trigger with edges to two other nodes orders the trigger first and then its targets in the order of the edges, whatever the order of the nodes |
| FlowExecutor.SiblingsFollowEdgeOrder | backend/core/flow_executor.py:19-32 | with nodes a, b, c, edges a→b, a→c give a, b, c and edges a→c, a→b give a, c, b |
| FlowExecutor.LeftOutIsStuck | backend/core/flow_executor.py:34 | the nodes Kahn's loop left out form a stuck set |
| FlowExecutor.AcyclicOrdersAll | backend/core/flow_executor.py:34 | with distinct ids and no cycle, every node is ordered |
| FlowExecutor.CycleCheck | backend/core/flow_executor.py:34-35 | `len(ordered) == len(nodes)` exactly when the ids are distinct and the graph is acyclic |
| FlowExecutor.Lookup | backend/core/flow_executor.py:37 | the ordered ids mapped back to their nodes, position by position |
| FlowExecutor.LookupPermutes | backend/core/flow_executor.py:37 | the looked-up nodes are a permutation of the input nodes |
| FlowExecutor.EdgesPointForward | backend/core/flow_executor.py:26-37 | in the result, every edge's source comes before its target |
| FlowExecutor.SortedIsTopological | backend/core/flow_executor.py:37 | the returned list is a topological order of the input |
| FlowExecutor.TopoSort | backend/core/flow_executor.py:14-37 | an edge naming an unknown node fails at lookup; "Flow contains cycles" exactly for duplicate ids or a cycle; otherwise a permutation of the nodes that respects every edge and starts with the zero-in-degree nodes in input order; the ids are exactly `KahnOrder`, and the cycle error comes exactly when `KahnOrder` is shorter than the node list |
| FlowExecutor.InitialContext | backend/core/flow_executor.py:64 | the run starts from the request's context, or from an empty one |
| FlowExecutor.NoPauseKeeps | backend/core/flow_executor.py:113-121 | a result that does not ask for user action lets the run continue |
| FlowExecutor.PausedRunScheduled | backend/core/flow_executor.py:110-121 | a run stopped right after the first pausing node ran as scheduled |
| FlowExecutor.RecordKeeps | backend/core/flow_executor.py:110 | recording a node's result keeps exactly one result per attempted node |
| FlowExecutor.StepKeeps | backend/core/flow_executor.py:81-110 | one dispatch records the node's result and passes on the context it leaves |
| FlowExecutor.RunNodes | backend/core/flow_executor.py:76-126 | the loop runs the nodes in order on the shared context, records one result per attempted node and stops after the first pausing result |
| FlowExecutor.ExecuteFlow | backend/core/flow_executor.py:41-126 | sorting errors surface unchanged; otherwise the nodes run in exactly `KahnOrder`, a topological order, as scheduled from the initial context |
| FlowExecutor.NodeWithoutActionIsSkipped | backend/core/flow_executor.py:81-85 | a node without an action gets `success` with `{"skipped": True}`, no handler runs and the context is unchanged |
| FlowExecutor.UnknownActionIsError | backend/core/flow_executor.py:87-91 | an unregistered action gives `error` "No handler for action <id>", and the run goes on |
| FlowExecutor.RaisingHandlerIsError | backend/core/flow_executor.py:93-110 | a handler that raises gives `error` with the exception's text, and its context changes are kept |
| FlowExecutor.ReturningHandlerIsRecorded | backend/core/flow_executor.py:98-110 | a handler's returned result is recorded as is |
| FlowExecutor.NoPauseRunsAll | backend/core/flow_executor.py:110-126 | without a pausing result, every node runs and has exactly one result |
| Actions.OfType | backend/core/actions.py:36-39 | the filter keeps only definitions of the given node type |
| Actions.OfTypeAppend | backend/core/actions.py:37 | filtering keeps the registry's order (it distributes over concatenation) |
| Actions.OfTypeMembers | backend/core/actions.py:37 | a definition is returned exactly when it is registered with that node type |
| Actions.OfTypeAll | backend/core/actions.py:37 | definitions that all have the type are returned unchanged |
| Actions.OfTypeIdempotent | backend/core/actions.py:37 | filtering twice equals filtering once |
| Actions.ListedReplace | backend/core/actions.py:17 | replacing a registered definition keeps its insertion slot |
| Actions.ListedAppend | backend/core/actions.py:17 | a new definition goes to the end of the insertion order |
| Actions.ListedValues | backend/core/actions.py:37 | the values in insertion order are exactly the registered definitions |
| Actions.RegisteredOfType | backend/core/actions.py:36-39 | the filtered values are exactly the registered definitions of the type |
| Actions.Registry.constructor | backend/core/actions.py:10-11 | both registries start empty |
| Actions.Registry.RegisterAction | backend/core/actions.py:16-24 | stores the definition under its id (last write wins, slot kept), returns the id and touches nothing else |
| Actions.Registry.RegisterHandler | backend/core/actions.py:27-33 | maps the id to the handler, returns the handler unchanged and touches nothing else |
| Actions.Registry.ActionsForNodeType | backend/core/actions.py:36-39 | exactly the registered definitions of the type, in registry order |
| Auth.Partition | backend/services/auth.py:62 | `str.partition(" ")`: the text before the first space and the text after it |
| Auth.ExtractToken | backend/services/auth.py:58-66 | empty header gives 401 "Authorization header required"; accepted exactly when the scheme before the first space is "bearer" in any case and the rest is non-empty, which is returned; otherwise 401 "Bearer token required" |
| Auth.AppMetadataGet | backend/services/auth.py:121 | a missing `app_metadata` reads as empty; one that is not a dict fails |
| Auth.EmbeddedRoles | backend/services/auth.py:119-122 | top-level `workspace_roles` wins when truthy; otherwise `app_metadata.workspace_roles` |
| Auth.ParseMembership | backend/services/auth.py:29-33 | an entry is a membership only when it carries string `workspace_id` and `role` |
| Auth.ValidMemberships | backend/services/auth.py:126-134 | invalid entries are skipped |
| Auth.ValidMembershipsAppend | backend/services/auth.py:127-133 | valid entries keep their order |
| Auth.ValidMembershipsMembers | backend/services/auth.py:127-133 | a membership is kept exactly when some entry parses to it |
| Auth.LoadMembershipsFromClaims | backend/services/auth.py:118-134 | no roles claimed gives none; otherwise the valid entries in order |
| Auth.KeyedAppend | backend/services/auth.py:150-152 | keying a concatenation lets the later entries override |
| Auth.KeyedLast | backend/services/auth.py:163 | a workspace is keyed exactly when some entry names it, and it maps to the last such entry |
| Auth.Overlay | backend/services/auth.py:150-152 | the merge loop overlays the remote memberships on the embedded ones |
| Auth.ResolveMemberships | backend/services/auth.py:137-175 | equals the reference resolution: remote over embedded with sync (a lookup's HTTP error passed on, any other lookup failure turned into a 503), otherwise the claimed memberships or the default workspace |
| Auth.SyncedMemberships | backend/services/auth.py:145-162 | with sync, a workspace resolves exactly when claimed or fetched, and a fetched one wins; no default is added; a lookup's HTTP error fails the resolution unchanged, any other lookup failure fails it with 503 "Unable to validate workspace membership" |
| Auth.UnsyncedMemberships | backend/services/auth.py:163-175 | without sync, the claimed workspaces, or the default workspace only when nothing was claimed, the user is not a platform admin and the default id is non-empty |
| Auth.KeyedEmpty | backend/services/auth.py:168 | the resolved map is empty exactly when there were no memberships |
| Auth.IsPlatformAdmin | backend/services/auth.py:207-211 | admin exactly when `role == "service_role"`, or `is_platform_admin` is truthy, or `app_metadata.platform_admin` is truthy |
| Auth.BuildAuthContext | backend/services/auth.py:178-220 | the dev user when auth is disabled; 401 for a missing header, bad bearer, undecodable token or missing `sub`; an error of the admin rule or of the membership resolution is passed on; otherwise the user with that `sub`, the `email` claim, the admin flag and the resolved memberships, or a validation error when `sub` is not a string or `email` is neither a string nor missing |
| Auth.RequireWorkspaceRole | backend/services/auth.py:230-245 | passes exactly for admins, or members whose role is allowed (any role when none are listed); 403 with the source's two messages otherwise |
| Auth.NewUserGetsDefaultWorkspace | backend/services/auth.py:163-173 | a new user with no claims and no sync resolves to the default workspace and passes the gate for its role |
| Synthesizer.CoerceDocumentPaths | backend/modules/deepeval_synthesizer.py:42-48 | a string becomes a one-element list, a list is kept; fails exactly when the value is not iterable |
| Synthesizer.ConfigKwargs | backend/modules/deepeval_synthesizer.py:131-149 | the nine numeric settings always; `critic_model`, `encoding`, `embedder` exactly when not None; nothing else |
| Synthesizer.CountWithExpected | backend/modules/deepeval_synthesizer.py:184-192 | the count never exceeds the number of goldens |
| Synthesizer.CountWithExpectedAppend | backend/modules/deepeval_synthesizer.py:184-192 | the count of a concatenation is the sum of the counts |
| Synthesizer.CountWithExpectedAll | backend/modules/deepeval_synthesizer.py:184-192 | every golden is counted exactly when all carry an expected output |
| Synthesizer.Summarize | backend/modules/deepeval_synthesizer.py:178-200 | the summary loop counts each golden once, with or without an expected output |
| Synthesizer.Synthesized | backend/modules/deepeval_synthesizer.py:118-173 | a path coercion failure is the result's failure |
| Synthesizer.GenerateGoldensFromDocuments | backend/modules/deepeval_synthesizer.py:51-214 | fails exactly when coercion or synthesis does; otherwise the synthesized goldens, the settings and a consistent summary |
| DeepevalActions.ParseJson | backend/actions/actions_deepeval.py:89-99 | None gives the fallback, lists and dicts pass, strings are JSON-decoded or give the fallback, anything else gives the fallback |
| DeepevalActions.ParseJsonIdempotent | backend/actions/actions_deepeval.py:89-99 | parsing an already parsed list or dict again changes nothing |
| DeepevalActions.CoerceBool | backend/actions/actions_deepeval.py:102-107 | bools pass, strings are true exactly when stripped and lowered they are true/1/yes/y, anything else gives the default |
| DeepevalActions.CoerceBoolReadsStr | backend/actions/actions_deepeval.py:102-107 | `str()` of a bool coerces back to that bool |
| DeepevalActions.DocGoldensSize | backend/actions/actions_deepeval.py:199-216 | one document yields contexts × goldens-per-context rows |
| DeepevalActions.GridSize | backend/actions/actions_deepeval.py:197-216 | the grid has documents × contexts × goldens-per-context rows |
| DeepevalActions.SummariesSize | backend/actions/actions_deepeval.py:197-201 | one context summary per document and context |
| DeepevalActions.GridAt | backend/actions/actions_deepeval.py:197-216 | the row at document d, context c, golden g sits at index d·(C·G)+c·G+g, is that golden's row, and has id `<dataset>-<d+1>-<c+1>-<g+1>` |
| DeepevalActions.GridExpectedOutput | backend/actions/actions_deepeval.py:211-214 | a row has `expected_output` exactly when expected outputs are included |
| DeepevalActions.PlanDocs | backend/actions/actions_deepeval.py:171-182 | the no-documents error exactly when the parsed paths are falsy (and the goldens count parses); otherwise the parameters the grid is built from, each context count at least 1 |
| DeepevalActions.BuildGrid | backend/actions/actions_deepeval.py:197-216 | the nested loops produce exactly the reference grid and context summaries |
| DeepevalActions.GenerateGoldensFromDocs | backend/actions/actions_deepeval.py:170-257 | refusal and failures leave the store alone; success stores the synthesized dataset under its id and returns the grid's output and context |
| DeepevalActions.GoldensFromDocsCounts | backend/actions/actions_deepeval.py:222-249 | `generated` is documents × contexts × goldens per context, `contexts_created` is documents × contexts, and the stored goldens are the grid |
| DeepevalActions.GoldensFromDocsExpectedOutput | backend/actions/actions_deepeval.py:211-214 | every stored golden has `expected_output` exactly when requested |
| DatasetActions.LoadDataset | backend/actions/actions_dataset.py:134-146 | "Unknown dataset_id=…" exactly when the id is falsy or, hashable, not stored; an unhashable id raises; otherwise the dataset and its id go into the context and the goldens count (0 without goldens) is returned |
| DatasetActions.UploadDataset | backend/actions/actions_dataset.py:150-167 | a falsy id and an unknown id give the source's two errors; otherwise the dataset is shared in the context and its file name returned |
| DatasetActions.LoadAndUploadAgree | backend/actions/actions_dataset.py:134-167 | for a stored dataset, loading and uploading leave the same context |
| DatasetActions.ReadOptions | backend/actions/actions_dataset.py:185-193 | the parameters are read with the source's defaults; an `int()` failure propagates |
| DatasetActions.RequestGoldens | backend/actions/actions_dataset.py:172-195 | the id comes from the context or the parameters; the missing-id, missing-dataset and missing-path errors; an accepted request carries the stored dataset, its path and the options |
| DatasetActions.GoldenDict | backend/actions/actions_dataset.py:236-268 | each golden becomes a row with exactly the keys id, input, expected_output, context |
| DatasetActions.Kept | backend/actions/actions_dataset.py:270-273 | a row is kept exactly when its input is a non-empty string not starting with "Document from" |
| DatasetActions.ConvertStep | backend/actions/actions_dataset.py:270-273 | one turn keeps, drops or fails on the row; a failure is final |
| DatasetActions.GoldenRows | backend/actions/actions_dataset.py:232-268 | one row per golden, built with its own index |
| DatasetActions.Filtered | backend/actions/actions_dataset.py:231-273 | no more rows than goldens, and every row kept passes the filter |
| DatasetActions.FilteredInOrder | backend/actions/actions_dataset.py:231-273 | the kept rows are the rows at strictly increasing indices |
| DatasetActions.ConvertedInOrder | backend/actions/actions_dataset.py:231-273 | the kept rows are the goldens' rows in original order, each built with its original index |
| DatasetActions.FilteredMembers | backend/actions/actions_dataset.py:270-273 | a row is in the result exactly when it passes the filter |
| DatasetActions.ConvertedMembers | backend/actions/actions_dataset.py:270-273 | a golden's row is kept exactly when it passes the filter |
| DatasetActions.FilteredStep | backend/actions/actions_dataset.py:232 | filtering goes row by row from the prefix |
| DatasetActions.FilteredFailsFrom | backend/actions/actions_dataset.py:350-352 | once a row fails, the whole conversion fails with its message |
| DatasetActions.ConvertGoldens | backend/actions/actions_dataset.py:231-273 | the conversion loop computes exactly the reference conversion |
| DatasetActions.GenerateAccepted | backend/actions/actions_dataset.py:209-352 | a failure gives "Failed to generate goldens: …" and leaves the store alone; success replaces the stored goldens with the kept rows and returns the summary's counts and the new context |
| DatasetActions.GenerateGoldens | backend/actions/actions_dataset.py:171-352 | refusals give the source's errors, bad numeric parameters raise, and both leave the store alone; accepted requests go on as above |
| DatasetActions.GoldensOutputCounts | backend/actions/actions_dataset.py:334-348 | `generated` is the total, the total splits into with and without expected output, and no more rows are kept than generated |
| DatasetActions.NormalisedContext | backend/actions/actions_dataset.py:407-421 | a string context becomes a list: JSON if it parses to a list, else wrapped, an empty string giving an empty list; it raises exactly when JSON fails and `ast.literal_eval` raises something other than ValueError or SyntaxError |
| DatasetActions.NormalisedRecord | backend/actions/actions_dataset.py:406-421 | only a string `context` changes, and never stays a string; the record raises exactly when that context does |
| DatasetActions.NormalisedRecords | backend/actions/actions_dataset.py:406-421 | normalising all records keeps their number |
| DatasetActions.NormalisedRecordsMeaning | backend/actions/actions_dataset.py:406-421 | all records normalise exactly when each does, each at its place; otherwise the error is that of a record all of whose predecessors normalise |
| DatasetActions.FirstFailure | backend/actions/actions_dataset.py:406-421 | the first record that raises decides the error |
| DatasetActions.NormaliseContexts | backend/actions/actions_dataset.py:406-421 | the loop normalises the records in order, stopping at the first exception, exactly as `NormalisedRecords` |
| DatasetActions.ReviewData | backend/actions/actions_dataset.py:392-421 | truthy `goldens_data` is used as is; goldens reloaded from CSV are dicts without string contexts; it raises exactly when the CSV is read and reading it or parsing a context raises |
| DatasetActions.ReviewResult | backend/actions/actions_dataset.py:443-458 | the review result is `pending`, asks for user action and carries the session id, dataset id, goldens and their count |
| DatasetActions.ReviewContext | backend/actions/actions_dataset.py:433-435 | the context gains the review session, dataset id and goldens, every other entry kept |
| DatasetActions.ReviewOutcome | backend/actions/actions_dataset.py:375-458 | the only error result is a missing dataset id; an exception leaves the context alone; otherwise the pending result's session, dataset id and goldens are the ones the context now holds, the count is the goldens' length, and every other entry is kept |
| DatasetActions.ReviewGoldens | backend/actions/actions_dataset.py:375-458 | exactly `ReviewOutcome` for the session id given: a falsy id is an error; otherwise the context gains the session, id and goldens, and the result pauses the flow |
| DatasetActions.ExportData | backend/actions/actions_dataset.py:502-514 | reviewed goldens first, then `goldens_data`, then the CSV, whose read errors are swallowed |
| DatasetActions.ExportGoldens | backend/actions/actions_dataset.py:481-558 | a falsy id and nothing to export are errors that keep the context; success stores the exported goldens and reports their count and download URL |
| LeadScore.ScoredCount | backend/crew/lead_score_flow.py:6 | `len(range(min(max_leads, 5)))`: 0 for a non-positive limit, at most 5 |
| LeadScore.RunLeadScoreFlow | backend/crew/lead_score_flow.py:1-8 | ids 0..n-1 in order, score `max(0, 100 - id)` in [0, 100], source the CSV path |
| LeadScore.LeadsRanked | backend/crew/lead_score_flow.py:4-7 | ids rise and scores fall strictly along the list, every score above 95 |
| LeadScore.LeadsPrefix | backend/crew/lead_score_flow.py:6 | a larger limit only appends leads |
| Datasets.DatasetStore.constructor | backend/services/datasets.py:25-34 | the registry starts with the demo dataset and its two goldens, nothing else |

## Left out

- JWT decoding and the Supabase membership fetch are parameters (`decode`, `fetch`). HTTP transport, timeouts and the settings' environment reads are not modelled.
- `run_deepeval_action`, `_score_value` and `_call_llm` are not modelled: their output comes from randomness and a language model.
- Writing CSV files, creating directories and reading back the first lines are left out. The CSV path is computed. The read of a CSV is `Lib.readCsv`.
- Logging is left out everywhere.
- The uuid suffix, the review session id (time and randomness) and the data directory are parameters (`uuidHex8`, `sessionId`, `dataDir`).
- Exception texts raised by Python itself (`int()` of bad text, hashing a list, item access on a dict) come from `Lib.raised`. Only the messages the code writes itself are spelled out.
- `Values.Value` compares dictionary keys structurally. Python's `1 == 1.0 == True` for keys is not modelled.
- Objects other than the goldens' attribute reads are opaque `VOther` values. Such an object's `startswith` counts as missing.
- `register_handler` is modelled as a method that takes the handler, not as a decorator.
- `GenerateGoldens`, `GenerateAccepted` and `GenerateGoldensFromDocs` write the dataset registry, so they are module-level methods that take the `DatasetStore` and are not registered `Handler` values. The executor runs only handlers that change nothing but the context.
- `ReviewGoldens` is a method because of the normalising loop. Its session id, built from the clock and random characters, is a parameter. `ReviewOutcome` states what it returns for a given session id.
- `FlowNodeData`: the `subtitle` and `config` fields are not modelled. No modelled operation reads them.
- Python dicts are shared by reference: the dataset put in the context and the one in the registry are the same object. The model copies the value at the moment of the handler. Later mutations through one alias are not seen through the other.
- `AsciiLower` lowers ASCII letters only. Python's `str.lower` also lowers other letters, but only two non-ASCII letters lower to ASCII ones. The model's comparisons are against ASCII words, so this matters only for those two.
- `generate_goldens_action` passes the numeric settings through `int()`/`float()` before the `try`. Their validation inside `ContextConstructionConfig` is part of the synthesizer parameter.
- In `generate_goldens_from_docs_action`, the path name of a document (`Path(str(doc)).name`) is `Lib.pathName`. Messages of type errors that Python raises are spelled out only where their text is fixed by the type name.
- The crewai action that calls `run_lead_score_flow` is not part of this model.
