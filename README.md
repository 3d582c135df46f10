# Workflow run bookkeeping and workflow editing, in Dafny

This project models the bookkeeping around workflow runs and workflow edits in
an AI-agent workflow builder:

- **The execution record store** (`executions.dfy`, module `Executions`). The
  backend's `executions` table is a map from id to record in the class
  `ExecutionStore`. The class also holds the owner and name of each workflow.
  Its methods are the backend mutations: `createExecution`, `updateExecution`
  and `completeExecution`. Its queries are `getExecution`,
  `getWorkflowExecutions` and `list`. Ids are handed out in creation order, so
  "newest first" means "largest id first".
- **The runs listing endpoint** (`runs.dfy`, module `Runs`). `GET
  /api/workflow/runs` turns the records `list` returns into run summaries.
  These are pure functions. The status is normalised, the workflow name gets a
  default, and the start time falls back to the creation time. A duration is
  derived when both timestamps are known.
- **The workflow editor hook** (`workflow_hook.dfy`, module `WorkflowHook`).
  The pure parts are functions: the default workflow, the merge of a save, and
  the per-node data merge. The hook's state is the class `WorkflowEditor`,
  with the fields `workflow`, `convexId` and `pendingSave`. The MCP server list
  is the class `McpServerList`.
- `values.dfy` (`Values`) holds `Option`, `Result` and a JSON-like `Value`.
  `text.dfy` (`Text`) renders integers as JavaScript's template literals do and
  parses them back.

Timestamps are integer milliseconds, passed in as `now`. With integer
milliseconds, `Math.round(d / 1000)` is exactly `(d + 500) / 1000` in Dafny's
floor division. `Runs.RoundedSeconds` is characterised by
`1000*r - 500 <= d < 1000*r + 500` (nearest second, ties up), and
`Runs.RoundedSecondsUnique` shows that no other integer meets that bound.

Three behaviours of the code worth knowing:

- Summaries report only completed, running or failed. Any other stored status,
  for example `waiting_approval` or `cancelled`, is reported as failed.
- `updateExecution` may set `output` at any time. Neither mutation refuses a
  record that has already finished, so completing a finished record overwrites
  it.
- `list` takes the 50 newest records of all users and then keeps the caller's.
  A caller's run that is not among those 50 is not listed, even when the caller
  has fewer than 50 listed runs. `ExecutionStore.List` states this as an
  if-and-only-if.

## Model

| member | source | states |
|---|---|---|
| `Executions.NewExecution` | convex/executions.ts:16-24 | a new record is running with no completion time, has the given workflowId, input and threadId, empty node results and variables, starts at `now`, and has no output, error or current node |
| `Executions.ExecutionStore.CreateExecution` | convex/executions.ts:15-26 | inserts exactly one record under an id that was free and is larger than every stored id; other records and the workflows are unchanged |
| `Executions.Patched` | convex/executions.ts:40-43 | each supplied field takes the supplied value and each other field keeps its value; workflowId, input, threadId, startedAt and completedAt cannot be patched |
| `Executions.PatchNothing` | convex/executions.ts:40-43 | an update that supplies nothing leaves the record unchanged |
| `Executions.PatchIdempotent` | convex/executions.ts:40-43 | repeating an update is the same as doing it once |
| `Executions.PatchCompose` | convex/executions.ts:40-43 | two updates in a row equal one update in which the later values win |
| `Executions.PatchKeepsInProgress` | convex/executions.ts:40-43 | an update without a status keeps a running, unfinished record running and unfinished |
| `Executions.ExecutionStore.UpdateExecution` | convex/executions.ts:30-44 | patches the one record and returns its id; a missing id is an error that changes nothing; other records are unchanged |
| `Executions.CompletionStatus` | convex/executions.ts:55 | the status is `failed` exactly when the error is present and not empty, and `completed` otherwise |
| `Executions.Completed` | convex/executions.ts:54-59 | the record is finished, is failed exactly when the error is truthy, stores exactly the given output and error (absent ones remove the old values), is stamped `completedAt = now`, and keeps its other fields |
| `Executions.CompleteIdempotent` | convex/executions.ts:54-59 | completing twice with the same arguments equals completing once |
| `Executions.ExecutionStore.CompleteExecution` | convex/executions.ts:47-62 | completes the one record and returns its id; a missing id is an error that changes nothing; other records are unchanged |
| `Executions.ExecutionStore.GetExecution` | convex/executions.ts:65-71 | returns a record exactly when one is stored under the id, and returns that record |
| `Executions.Descending` | convex/executions.ts:97-99 | lists every id of the table below the bound, each exactly once, in strictly decreasing order |
| `Executions.ExecutionStore.NewestFirst` | convex/executions.ts:97-99 | the table in descending order: every stored id, strictly newest first |
| `Executions.PrefixIsNewest` | convex/executions.ts:97-100 | in a newest-first sequence, every id in the first `n` is newer than every id after them |
| `Executions.ExecutionStore.Recent` | convex/executions.ts:97-100 | at most 50 stored ids, newest first; every stored id left out is older than every id taken; with fewer than 50 taken, nothing is left out |
| `Executions.Select` | convex/executions.ts:77-81 | keeps only ids that are accepted, never more ids than it was given |
| `Executions.SelectExactly` | convex/executions.ts:77-81 | an id is selected exactly when it is in the input and accepted |
| `Executions.SelectKeepsOrder` | convex/executions.ts:77-81 | selecting from a newest-first sequence keeps it newest first |
| `Executions.Documents` | convex/executions.ts:77-82 | pairs each id with its stored record, in order, with the same set of ids |
| `Executions.ExecutionStore.WorkflowExecutions` | convex/executions.ts:74-84 | returns exactly the stored records whose workflowId matches, each with its own record, in strictly descending id order |
| `Executions.OwnedListings` | convex/executions.ts:103-112 | the entries the `for`/`push` loop builds from the ids it walks, never more than there are ids; the three lemmas below say which entries and in what order |
| `Executions.OwnedListingsAppend` | convex/executions.ts:104-111 | one more record adds its entry, with the workflow's name, exactly when the caller owns its workflow |
| `Executions.OwnedListingsExactly` | convex/executions.ts:102-112 | every entry is a stored record whose workflow exists, is owned by the caller and names the entry; every owned record of the input has an entry; there are no more entries than inputs |
| `Executions.OwnedListingsOrder` | convex/executions.ts:103-114 | entries built from a newest-first sequence are newest first |
| `Executions.ExecutionStore.PushOwned` | convex/executions.ts:103-112 | the `for` loop with `push` builds exactly the owned entries of the ids it walks, in their order |
| `Executions.ExecutionStore.List` | convex/executions.ts:87-116 | no caller gives the empty list. Otherwise there are at most 50 entries, each a stored record owned by the caller and carrying its workflow's name. An id is listed exactly when it is among the 50 newest and its workflow is the caller's. The list is newest first |
| `Text.NatToDecimal` | app/api/workflow/runs/route.ts:27 | a non-empty string of digits without a leading zero |
| `Text.IntToDecimal` | app/api/workflow/runs/route.ts:27 | `${i}` for an integer: non-empty, starting with a minus sign exactly when the integer is negative, digits otherwise, and no leading zero; with `Text.IntToDecimalRoundTrip` this fixes the text exactly |
| `Text.NatToDecimalRoundTrip` | app/api/workflow/runs/route.ts:27 | reading the digits of `n` back gives `n` |
| `Text.IntToDecimalRoundTrip` | app/api/workflow/runs/route.ts:27 | parsing the rendering of any integer gives that integer |
| `Text.IntToDecimalInjective` | hooks/useWorkflow.ts:77 | different integers are rendered differently |
| `Runs.NormalizeStatus` | app/api/workflow/runs/route.ts:33-34 | completed if and only if the stored status is `completed`; running if and only if it is `running`; failed for every other status |
| `Runs.RoundedSeconds` | app/api/workflow/runs/route.ts:27 | the result is the whole number of seconds nearest to the elapsed milliseconds, a tie rounding up |
| `Runs.RoundedSecondsUnique` | app/api/workflow/runs/route.ts:27 | no other whole number satisfies that bound, so the rounding is determined |
| `Runs.DurationText` | app/api/workflow/runs/route.ts:27 | `${seconds}s` ends in `s`, starts with a minus sign exactly when the seconds are negative, and has no leading zero; with `Runs.DurationTextRoundTrip` this fixes the text exactly |
| `Runs.DurationTextRoundTrip` | app/api/workflow/runs/route.ts:27 | the text `<n>s` reads back as `n` seconds |
| `Runs.Duration` | app/api/workflow/runs/route.ts:26-28 | present exactly when both completedAt and startedAt are; it is then the duration text of the elapsed time rounded to the nearest second, and reads back as that number of seconds |
| `Runs.SummaryDuration` | app/api/workflow/runs/route.ts:26-28 | a duration is present if and only if both completedAt and startedAt are present; it is then exactly the text `<n>s` of the elapsed time rounded to the nearest second, and reads back as that number |
| `Runs.SummaryName` | app/api/workflow/runs/route.ts:32 | the name is the workflow name when that is present and not empty, else "Untitled Workflow"; it is never empty |
| `Runs.SummaryStart` | app/api/workflow/runs/route.ts:35 | the start time is the record's startedAt, or its createdAt when startedAt is missing |
| `Runs.Summarize` | app/api/workflow/runs/route.ts:30-41 | id comes from the record's id; the status is the normalised stored status; the duration is `Runs.Duration` of the record; output, error, nodeResults and completedAt pass through unchanged |
| `Runs.Summaries` | app/api/workflow/runs/route.ts:25-42 | one summary per record, at the same position |
| `Runs.GetRuns` | app/api/workflow/runs/route.ts:9-47 | when the store is not configured: no runs, total 0, and the "not configured" message; otherwise one summary per record in order, with total equal to the number of runs |
| `Runs.FromListed` | convex/executions.ts:107-110 | a `list` entry as the endpoint reads it: id, status, timestamps, output, error and nodeResults are the record's own, the workflow name is the one `list` attached, and createdAt is missing because the store never writes it |
| `Runs.InProgressSummary` | app/api/workflow/runs/route.ts:26-35 | a listed run that is still going is summarised as running, with its own start time, no end and no duration |
| `Runs.CompletedSummary` | app/api/workflow/runs/route.ts:26-39 | a listed run finished by `completeExecution` is summarised as failed exactly when its error is truthy, and as completed otherwise; it has a duration, rounded from its start to `now`, and the given output and error |
| `Runs.ListedRuns` | app/api/workflow/runs/route.ts:22-47 | over what `list` returns, total is the number of entries, and every summary keeps its entry's id and start time, in `list`'s order |
| `WorkflowHook.GeneratedId` | hooks/useWorkflow.ts:77 | `workflow_` followed by the decimal text of the current time, which reads back as that time |
| `WorkflowHook.GeneratedIdInjective` | hooks/useWorkflow.ts:77 | ids generated at different instants differ |
| `WorkflowHook.NewWorkflow` | hooks/useWorkflow.ts:76-110 | the default workflow has the generated id, the name "New Workflow", no description, two nodes and one edge, and was created and updated at `now` |
| `WorkflowHook.NewWorkflowShape` | hooks/useWorkflow.ts:76-110 | there are exactly two nodes: `node_0` of type start and `node_1` of type agent. The one edge is `edge_0_1`, from `node_0` to `node_1`. The name is "New Workflow" and the creation and update times are `now`. The graph is well formed |
| `WorkflowHook.WorkflowEditor.constructor` | hooks/useWorkflow.ts:15-19 | the hook starts with no workflow, no backend id and no pending save |
| `WorkflowHook.WorkflowEditor.CreateNewWorkflow` | hooks/useWorkflow.ts:75-117 | installs the default workflow as the current one and returns it |
| `WorkflowHook.Created` | hooks/useWorkflow.ts:123-138 | a workflow is created if and only if updates are given with both nodes and edges. It has those nodes, edges and description. Its id and name are the given ones when not empty, else a generated id and "New Workflow". Its creation and update times are `now` |
| `WorkflowHook.Merge` | hooks/useWorkflow.ts:162-166 | each field present in the updates takes the update's value; every other field keeps its value; updatedAt becomes `now` |
| `WorkflowHook.MergeNothing` | hooks/useWorkflow.ts:162-166 | saving without updates only refreshes updatedAt |
| `WorkflowHook.MergeCombine` | hooks/useWorkflow.ts:162-166 | two saves in a row equal one save of the spread-combined updates |
| `WorkflowHook.MergeIgnoresUpdatedAt` | hooks/useWorkflow.ts:162-166 | a supplied updatedAt never survives a save |
| `WorkflowHook.WorkflowEditor.SaveWorkflow` | hooks/useWorkflow.ts:121-176 | Without a workflow: incomplete updates change nothing, and complete ones install the created workflow and return it for the immediate save. With a workflow: installs the merged workflow and makes it the pending debounced save, replacing any earlier one |
| `WorkflowHook.WorkflowEditor.RecordSaveResponse` | hooks/useWorkflow.ts:153-155 | the backend id is recorded only when the save succeeded and returned a non-empty id |
| `WorkflowHook.WorkflowEditor.UpdateNodes` | hooks/useWorkflow.ts:200-208 | without a workflow nothing changes; otherwise only the nodes are replaced and updatedAt refreshed, and that workflow becomes the pending save |
| `WorkflowHook.WorkflowEditor.UpdateEdges` | hooks/useWorkflow.ts:211-215 | without a workflow nothing changes; otherwise only the edges are replaced and updatedAt refreshed, and that workflow becomes the pending save |
| `WorkflowHook.WithNodeData` | hooks/useWorkflow.ts:221-225 | the same number of nodes in the same order. Every node with another id is unchanged. A node with that id gets its old data overridden by the given data |
| `WorkflowHook.WithNodeDataOverrides` | hooks/useWorkflow.ts:223 | in the updated node, every supplied key has the supplied value, every other key keeps its value, and no key is lost |
| `WorkflowHook.WithNodeDataKeepsGraph` | hooks/useWorkflow.ts:221-225 | node ids are unchanged and a well-formed graph stays well formed |
| `WorkflowHook.WithNodeDataIdempotent` | hooks/useWorkflow.ts:221-225 | applying the same data update twice equals applying it once |
| `WorkflowHook.WorkflowEditor.UpdateNodeData` | hooks/useWorkflow.ts:218-228 | without a workflow nothing changes. Otherwise the nodes become the per-node merge and updatedAt is refreshed, a well-formed graph stays well formed, and the result is the pending save |
| `WorkflowHook.FindServer` | hooks/useWorkflow.ts:273 | returns the index of the first server with that id, or nothing when no server has it |
| `WorkflowHook.MergeServer` | hooks/useWorkflow.ts:275 | supplied fields override and the others are kept; the id changes only when the updates supply one |
| `WorkflowHook.McpServerList.constructor` | hooks/useWorkflow.ts:256-265 | after mounting, the list is what storage returned and nothing has been saved |
| `WorkflowHook.McpServerList.AddServer` | hooks/useWorkflow.ts:267-270 | hands the server to storage and takes the reloaded list |
| `WorkflowHook.McpServerList.UpdateServer` | hooks/useWorkflow.ts:272-278 | When a server with the id is listed, hands the first such server merged with the updates to storage and takes the reloaded list. Otherwise nothing changes |

## Left out

- Logging is not modelled: the `console` warnings, messages and errors in the hook and the endpoint have no effect on state.
- Network and framework plumbing is not modelled: `fetch`, response parsing, the Convex client, `NextResponse` and the route's 500 error path. The caller's identity and whether the store is configured are parameters.
- Clocks: every operation takes one `now` in milliseconds. `createNewWorkflow` and `saveWorkflow` read the clock several times, which may differ by a millisecond; the model uses one reading. ISO date strings and their parsing are not modelled. A timestamp's presence stands for the truthiness of its string, which is never empty.
- Numbers inside `Value` are integers; floating-point JSON numbers are not modelled. `Math.round` is modelled exactly only for integer milliseconds. The decimal rendering matches JavaScript's for safe integers (magnitude below 2^53), which covers every duration and `Date.now()` value. Above 2^53 JavaScript prints a shortest round-tripping form padded with zeros, which is not modelled.
- The debounce in `saveWorkflow` is not modelled as timing. `pendingSave` records which workflow the pending timer would send; when the timer fires is not modelled.
- React closures are not modelled: each call sees the state left by the previous call. A call made before a re-render can see stale state in the source.
- `WorkflowHook.Merge`: cannot tell an update field set explicitly to `undefined` from an absent one. Such a field would overwrite in the source; here it keeps the old value.
- `Executions.Patched`: has the same limitation for `updateExecution` arguments. A missing optional argument never reaches the patch, so this does not arise through the mutation's own validator.
- `WorkflowHook.MergeServer`: has the same limitation for `{...existing, ...updates}` in `updateServer`. An update field set explicitly to `undefined`, for example `{name: undefined}`, would overwrite in the source. `McpServerUpdates` cannot express it, so here the field keeps its value.
- Storage for MCP servers (`saveMCPServer`, `getMCPServers`) is not part of this model. Saved servers are logged in `saved`, and each reload's result is a parameter. `lib/workflow/types` is not part of this model either. An MCP server is its id plus a map of its other fields, and nodes and edges carry only the fields the hook touches.
- The hook's `loadWorkflows`, the initial load effect, the `loading` flag and the `workflows` list are not modelled: they are `fetch` calls. `deleteWorkflow` is not modelled either, because it calls a storage function whose body is not part of this model.
- Convex ids are modelled as natural numbers from a counter, and the table's descending order as descending id. `createExecution` does not check that the workflow exists. The validator only checks the id's format, so the model does not check it either.
- The route reads a `createdAt` field that the store never writes, so `Runs.FromListed` leaves it missing. The fallback is still modelled for records that carry one.
- The graph-walking scheduler, fan-in, loop bounds and approval pause/resume are not modelled: no code for them is part of this model. `WorkflowHook.WellFormed` means distinct node ids, edges between existing nodes, a start node and no edge into it. The default workflow has this shape and data edits keep it. The hook itself never checks it.
