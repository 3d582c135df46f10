/**
 * The `executions` table of the workflow backend and the mutations and queries
 * over it: creating a run record, patching it while the run progresses,
 * completing it, and listing runs per workflow and per user.
 */
module Executions {
  import opened Values

  /** Ids are handed out in creation order, so a larger id is a newer record. */
  type ExecutionId = nat
  type WorkflowId = string

  const StatusRunning: string := "running"
  const StatusCompleted: string := "completed"
  const StatusFailed: string := "failed"

  /** How many of the newest records `list` looks at. */
  const RecentLimit: nat := 50

  /** One row of the `executions` table. Timestamps are milliseconds. */
  datatype Execution = Execution(
    workflowId: WorkflowId,
    status: string,
    input: Option<Value>,
    threadId: Option<string>,
    nodeResults: Value,
    variables: Value,
    currentNodeId: Option<string>,
    output: Option<Value>,
    error: Option<string>,
    startedAt: int,
    completedAt: Option<int>)

  /** The two columns of a `workflows` row that this store reads. */
  datatype WorkflowRow = WorkflowRow(userId: string, name: string)

  /** The optional arguments of `updateExecution`; `None` means "not supplied". */
  datatype ExecutionPatch = ExecutionPatch(
    status: Option<string>,
    currentNodeId: Option<string>,
    nodeResults: Option<Value>,
    variables: Option<Value>,
    output: Option<Value>,
    error: Option<string>)

  const NoChanges := ExecutionPatch(None, None, None, None, None, None)

  /** Patching a record that does not exist throws. */
  datatype StoreError = NotFound(id: ExecutionId)

  /** A stored record together with its `_id`. */
  datatype Document = Document(id: ExecutionId, execution: Execution)

  /** An entry of `list`: the record, its `_id`, and the name of its workflow. */
  datatype ListedExecution = ListedExecution(id: ExecutionId, execution: Execution, workflowName: string)

  /** A run that has started and not finished. */
  predicate InProgress(e: Execution) {
    e.status == StatusRunning && e.completedAt.None?
  }

  /** A run that has finished, successfully or not. */
  predicate Finished(e: Execution) {
    (e.status == StatusCompleted || e.status == StatusFailed) && e.completedAt.Some?
  }

  /** The record `createExecution` inserts. */
  function NewExecution(workflowId: WorkflowId, input: Option<Value>, threadId: Option<string>, now: int): (e: Execution)
    ensures InProgress(e)
    ensures e.workflowId == workflowId && e.input == input && e.threadId == threadId
    ensures e.nodeResults == Object(map[]) && e.variables == Object(map[])
    ensures e.startedAt == now
    ensures e.output.None? && e.error.None? && e.currentNodeId.None?
  {
    Execution(workflowId, StatusRunning, input, threadId, Object(map[]), Object(map[]),
              None, None, None, now, None)
  }

  /** The record after `updateExecution`: supplied fields take the new value, the rest stay. */
  function Patched(e: Execution, p: ExecutionPatch): (r: Execution)
    ensures r.status == p.status.GetOr(e.status)
    ensures r.currentNodeId == if p.currentNodeId.Some? then p.currentNodeId else e.currentNodeId
    ensures r.nodeResults == p.nodeResults.GetOr(e.nodeResults)
    ensures r.variables == p.variables.GetOr(e.variables)
    ensures r.output == if p.output.Some? then p.output else e.output
    ensures r.error == if p.error.Some? then p.error else e.error
    ensures r.workflowId == e.workflowId && r.input == e.input && r.threadId == e.threadId
    ensures r.startedAt == e.startedAt && r.completedAt == e.completedAt
  {
    e.(status := p.status.GetOr(e.status),
       currentNodeId := if p.currentNodeId.Some? then p.currentNodeId else e.currentNodeId,
       nodeResults := p.nodeResults.GetOr(e.nodeResults),
       variables := p.variables.GetOr(e.variables),
       output := if p.output.Some? then p.output else e.output,
       error := if p.error.Some? then p.error else e.error)
  }

  /** The patch that supplies every field either patch supplies, the later one winning. */
  function ThenPatch(p: ExecutionPatch, q: ExecutionPatch): ExecutionPatch {
    ExecutionPatch(
      if q.status.Some? then q.status else p.status,
      if q.currentNodeId.Some? then q.currentNodeId else p.currentNodeId,
      if q.nodeResults.Some? then q.nodeResults else p.nodeResults,
      if q.variables.Some? then q.variables else p.variables,
      if q.output.Some? then q.output else p.output,
      if q.error.Some? then q.error else p.error)
  }

  /** An update that supplies nothing leaves the record as it is. */
  lemma PatchNothing(e: Execution)
    ensures Patched(e, NoChanges) == e
  {
  }

  /** Repeating an update is the same as doing it once. */
  lemma PatchIdempotent(e: Execution, p: ExecutionPatch)
    ensures Patched(Patched(e, p), p) == Patched(e, p)
  {
  }

  /** Two updates in a row are one update with the later values winning. */
  lemma PatchCompose(e: Execution, p: ExecutionPatch, q: ExecutionPatch)
    ensures Patched(Patched(e, p), q) == Patched(e, ThenPatch(p, q))
  {
  }

  /** An update that does not supply a status keeps a running record running. */
  lemma PatchKeepsInProgress(e: Execution, p: ExecutionPatch)
    requires InProgress(e) && p.status.None?
    ensures InProgress(Patched(e, p))
  {
  }

  /** The status `completeExecution` writes: an error that is present and not empty fails the run. */
  function CompletionStatus(error: Option<string>): (s: string)
    ensures s == StatusFailed <==> Truthy(error)
    ensures s == StatusCompleted <==> !Truthy(error)
  {
    if Truthy(error) then StatusFailed else StatusCompleted
  }

  /** The record after `completeExecution`; absent output or error remove the stored ones. */
  function Completed(e: Execution, output: Option<Value>, error: Option<string>, now: int): (r: Execution)
    ensures Finished(r)
    ensures r.status == StatusFailed <==> Truthy(error)
    ensures r.output == output && r.error == error && r.completedAt == Some(now)
    ensures r.workflowId == e.workflowId && r.input == e.input && r.threadId == e.threadId
    ensures r.nodeResults == e.nodeResults && r.variables == e.variables
    ensures r.currentNodeId == e.currentNodeId && r.startedAt == e.startedAt
  {
    e.(status := CompletionStatus(error), output := output, error := error, completedAt := Some(now))
  }

  /** Completing twice with the same arguments is the same as completing once. */
  lemma CompleteIdempotent(e: Execution, output: Option<Value>, error: Option<string>, now: int)
    ensures Completed(Completed(e, output, error, now), output, error, now) == Completed(e, output, error, now)
  {
  }

  predicate Decreasing(ids: seq<ExecutionId>) {
    forall j, k :: 0 <= j < k < |ids| ==> ids[j] > ids[k]
  }

  /** The ids in `keys` below `n`, newest first. */
  function Descending(keys: set<ExecutionId>, n: nat): (r: seq<ExecutionId>)
    ensures Decreasing(r)
    ensures forall k :: 0 <= k < |r| ==> r[k] in keys && r[k] < n
    ensures forall id :: id in keys && id < n ==> id in r
    decreases n
  {
    if n == 0 then []
    else if n - 1 in keys then [n - 1] + Descending(keys, n - 1)
    else Descending(keys, n - 1)
  }

  /** The first `n` ids of a newest-first sequence are newer than every id after them. */
  lemma {:induction false} PrefixIsNewest(ids: seq<ExecutionId>, n: nat, a: ExecutionId, b: ExecutionId)
    requires Decreasing(ids) && n <= |ids|
    requires a in ids[..n] && b in ids && b !in ids[..n]
    ensures b < a
  {
    var i :| 0 <= i < n && ids[..n][i] == a;
    var j :| 0 <= j < |ids| && ids[j] == b;
    assert forall k :: 0 <= k < n ==> ids[k] == ids[..n][k];
    assert ids[i] == a && i < j;
  }

  /** The ids of `ids` that `keep` accepts, in the order of `ids`. */
  function Select(ids: seq<ExecutionId>, keep: set<ExecutionId>): (r: seq<ExecutionId>)
    ensures |r| <= |ids|
    ensures forall k :: 0 <= k < |r| ==> r[k] in ids && r[k] in keep
  {
    if ids == [] then []
    else
      var front := ids[..|ids| - 1];
      var last := ids[|ids| - 1];
      assert forall x :: x in front ==> x in ids;
      Select(front, keep) + if last in keep then [last] else []
  }

  /** `Select` drops exactly the ids that `keep` rejects. */
  lemma {:induction false} SelectExactly(ids: seq<ExecutionId>, keep: set<ExecutionId>)
    ensures forall id :: id in Select(ids, keep) <==> id in ids && id in keep
  {
    if ids != [] {
      var front := ids[..|ids| - 1];
      SelectExactly(front, keep);
      assert ids == front + [ids[|ids| - 1]];
    }
  }

  /** `Select` keeps a newest-first sequence newest first. */
  lemma {:induction false} SelectKeepsOrder(ids: seq<ExecutionId>, keep: set<ExecutionId>)
    requires Decreasing(ids)
    ensures Decreasing(Select(ids, keep))
  {
    if ids != [] {
      var front := ids[..|ids| - 1];
      var last := ids[|ids| - 1];
      SelectKeepsOrder(front, keep);
      var rest := Select(front, keep);
      assert forall k :: 0 <= k < |rest| ==> rest[k] > last by {
        forall k | 0 <= k < |rest|
          ensures rest[k] > last
        {
          var j :| 0 <= j < |front| && front[j] == rest[k];
          assert ids[j] == rest[k];
        }
      }
    }
  }

  /** `d` is the stored record `d.id`, and it belongs to `workflowId`. */
  predicate IsDocumentOf(d: Document, executions: map<ExecutionId, Execution>, workflowId: WorkflowId) {
    d.id in executions && d.execution == executions[d.id] && d.execution.workflowId == workflowId
  }

  function DocumentIds(r: seq<Document>): set<ExecutionId> {
    set k | 0 <= k < |r| :: r[k].id
  }

  /** The stored records of `ids`, in the order of `ids`. */
  function Documents(ids: seq<ExecutionId>, executions: map<ExecutionId, Execution>): (r: seq<Document>)
    requires forall k :: 0 <= k < |ids| ==> ids[k] in executions
    ensures |r| == |ids| && forall k :: 0 <= k < |r| ==> r[k].id == ids[k] && r[k].execution == executions[ids[k]]
    ensures DocumentIds(r) == set id | id in ids
  {
    var r := seq(|ids|, k requires 0 <= k < |ids| => Document(ids[k], executions[ids[k]]));
    assert forall id :: id in ids ==> id in DocumentIds(r) by {
      forall id | id in ids
        ensures id in DocumentIds(r)
      {
        var k :| 0 <= k < |ids| && ids[k] == id;
        assert r[k].id == id;
      }
    }
    r
  }

  /** The workflow of `e` exists and belongs to `subject`. */
  predicate Owns(e: Execution, workflows: map<WorkflowId, WorkflowRow>, subject: string) {
    e.workflowId in workflows && workflows[e.workflowId].userId == subject
  }

  /** `l` is the stored record `l.id`, owned by `subject` and named after its workflow. */
  predicate IsListing(l: ListedExecution, executions: map<ExecutionId, Execution>,
                      workflows: map<WorkflowId, WorkflowRow>, subject: string)
  {
    && l.id in executions
    && l.execution == executions[l.id]
    && Owns(l.execution, workflows, subject)
    && l.workflowName == workflows[l.execution.workflowId].name
  }

  function ListedIds(r: seq<ListedExecution>): set<ExecutionId> {
    set k | 0 <= k < |r| :: r[k].id
  }

  /** The entries `list` builds from `ids`: those owned by `subject`, in the order of `ids`. */
  function OwnedListings(ids: seq<ExecutionId>, executions: map<ExecutionId, Execution>,
                         workflows: map<WorkflowId, WorkflowRow>, subject: string): (r: seq<ListedExecution>)
    requires forall k :: 0 <= k < |ids| ==> ids[k] in executions
    ensures |r| <= |ids|
  {
    if ids == [] then []
    else
      var id := ids[|ids| - 1];
      var e := executions[id];
      OwnedListings(ids[..|ids| - 1], executions, workflows, subject)
        + if Owns(e, workflows, subject) then [ListedExecution(id, e, workflows[e.workflowId].name)] else []
  }

  /** Looking at one more id pushes its entry exactly when its workflow belongs to `subject`. */
  lemma OwnedListingsAppend(ids: seq<ExecutionId>, id: ExecutionId, executions: map<ExecutionId, Execution>,
                            workflows: map<WorkflowId, WorkflowRow>, subject: string)
    requires forall k :: 0 <= k < |ids| ==> ids[k] in executions
    requires id in executions
    ensures OwnedListings(ids + [id], executions, workflows, subject)
         == OwnedListings(ids, executions, workflows, subject)
          + if Owns(executions[id], workflows, subject)
            then [ListedExecution(id, executions[id], workflows[executions[id].workflowId].name)]
            else []
  {
    assert (ids + [id])[..|ids|] == ids;
  }

  /** Every entry `list` builds is an owned record of `ids`, and every owned record of `ids` is there. */
  lemma {:induction false} OwnedListingsExactly(ids: seq<ExecutionId>, executions: map<ExecutionId, Execution>,
                                                workflows: map<WorkflowId, WorkflowRow>, subject: string)
    requires forall k :: 0 <= k < |ids| ==> ids[k] in executions
    ensures var r := OwnedListings(ids, executions, workflows, subject);
      && |r| <= |ids|
      && (forall k :: 0 <= k < |r| ==> r[k].id in ids && IsListing(r[k], executions, workflows, subject))
      && ListedIds(r) == (set id | id in ids && Owns(executions[id], workflows, subject))
  {
    if ids != [] {
      var front, id := ids[..|ids| - 1], ids[|ids| - 1];
      OwnedListingsExactly(front, executions, workflows, subject);
      assert ids == front + [id];
      var rest := OwnedListings(front, executions, workflows, subject);
      var r := OwnedListings(ids, executions, workflows, subject);
      if Owns(executions[id], workflows, subject) {
        assert forall k :: 0 <= k < |rest| ==> r[k] == rest[k];
        assert r[|rest|].id == id;
        assert ListedIds(r) == ListedIds(rest) + {id};
      } else {
        assert r == rest;
      }
    }
  }

  /** The entries `list` builds from a newest-first sequence are newest first. */
  lemma {:induction false} OwnedListingsOrder(ids: seq<ExecutionId>, executions: map<ExecutionId, Execution>,
                                              workflows: map<WorkflowId, WorkflowRow>, subject: string)
    requires forall k :: 0 <= k < |ids| ==> ids[k] in executions
    requires Decreasing(ids)
    ensures var r := OwnedListings(ids, executions, workflows, subject);
      forall j, k :: 0 <= j < k < |r| ==> r[j].id > r[k].id
  {
    if ids != [] {
      var front, id := ids[..|ids| - 1], ids[|ids| - 1];
      OwnedListingsOrder(front, executions, workflows, subject);
      OwnedListingsExactly(front, executions, workflows, subject);
      var rest := OwnedListings(front, executions, workflows, subject);
      assert forall k :: 0 <= k < |rest| ==> rest[k].id > id by {
        forall k | 0 <= k < |rest|
          ensures rest[k].id > id
        {
          var j :| 0 <= j < |front| && front[j] == rest[k].id;
          assert ids[j] == rest[k].id;
        }
      }
    }
  }

  /** The `executions` and `workflows` tables. */
  class ExecutionStore {
    var executions: map<ExecutionId, Execution>
    var workflows: map<WorkflowId, WorkflowRow>
    /** The id the next inserted record receives. */
    var nextId: ExecutionId

    /** Every stored id was handed out before `nextId`. */
    ghost predicate Valid()
      reads this
    {
      forall id :: id in executions ==> id < nextId
    }

    constructor (workflows: map<WorkflowId, WorkflowRow>)
      ensures Valid()
      ensures this.executions == map[] && this.workflows == workflows
    {
      this.executions := map[];
      this.workflows := workflows;
      this.nextId := 0;
    }

    /** `getExecution`: the record with that id, if there is one. */
    function GetExecution(id: ExecutionId): (r: Option<Execution>)
      reads this
      ensures r.Some? <==> id in executions
      ensures r.Some? ==> r.value == executions[id]
    {
      if id in executions then Some(executions[id]) else None
    }

    /** `createExecution`: inserts a running record under a new id, newer than every other. */
    method CreateExecution(workflowId: WorkflowId, input: Option<Value>, threadId: Option<string>, now: int)
      returns (id: ExecutionId)
      requires Valid()
      modifies this
      ensures Valid()
      ensures id !in old(executions)
      ensures forall older :: older in old(executions) ==> older < id
      ensures executions == old(executions)[id := NewExecution(workflowId, input, threadId, now)]
      ensures workflows == old(workflows)
    {
      id := nextId;
      executions := executions[id := NewExecution(workflowId, input, threadId, now)];
      nextId := nextId + 1;
    }

    /** `updateExecution`: patches the supplied fields of one record. */
    method UpdateExecution(id: ExecutionId, patch: ExecutionPatch) returns (r: Result<ExecutionId, StoreError>)
      requires Valid()
      modifies this
      ensures Valid()
      ensures id in old(executions) ==>
        r == Ok(id) && executions == old(executions)[id := Patched(old(executions)[id], patch)]
      ensures id !in old(executions) ==> r == Err(NotFound(id)) && executions == old(executions)
      ensures workflows == old(workflows) && nextId == old(nextId)
    {
      if id !in executions {
        return Err(NotFound(id));
      }
      executions := executions[id := Patched(executions[id], patch)];
      r := Ok(id);
    }

    /** `completeExecution`: finishes one record, failed exactly when a non-empty error is given. */
    method CompleteExecution(id: ExecutionId, output: Option<Value>, error: Option<string>, now: int)
      returns (r: Result<ExecutionId, StoreError>)
      requires Valid()
      modifies this
      ensures Valid()
      ensures id in old(executions) ==>
        r == Ok(id) && executions == old(executions)[id := Completed(old(executions)[id], output, error, now)]
      ensures id !in old(executions) ==> r == Err(NotFound(id)) && executions == old(executions)
      ensures workflows == old(workflows) && nextId == old(nextId)
    {
      if id !in executions {
        return Err(NotFound(id));
      }
      executions := executions[id := Completed(executions[id], output, error, now)];
      r := Ok(id);
    }

    /** Every stored id, newest first: the table in `.order("desc")`. */
    function NewestFirst(): (r: seq<ExecutionId>)
      reads this
      requires Valid()
      ensures Decreasing(r)
      ensures forall id :: id in r <==> id in executions
    {
      Descending(executions.Keys, nextId)
    }

    /** `.order("desc").take(50)`: the newest records, at most fifty of them. */
    function Recent(): (r: seq<ExecutionId>)
      reads this
      requires Valid()
      ensures |r| <= RecentLimit && Decreasing(r)
      ensures forall k :: 0 <= k < |r| ==> r[k] in executions
      ensures |r| < RecentLimit ==> forall id :: id in executions ==> id in r
      ensures forall a, b :: a in r && b in executions && b !in r ==> b < a
    {
      var all := NewestFirst();
      var r := if |all| <= RecentLimit then all else all[..RecentLimit];
      assert r == all[..|r|];
      forall a, b | a in r && b in executions && b !in r
        ensures b < a
      {
        PrefixIsNewest(all, |r|, a, b);
      }
      r
    }

    /** `getWorkflowExecutions`: exactly the records of one workflow, newest first. */
    function WorkflowExecutions(workflowId: WorkflowId): (r: seq<Document>)
      reads this
      requires Valid()
      ensures forall k :: 0 <= k < |r| ==> IsDocumentOf(r[k], executions, workflowId)
      ensures DocumentIds(r) == set id | id in executions && executions[id].workflowId == workflowId
      ensures forall j, k :: 0 <= j < k < |r| ==> r[j].id > r[k].id
    {
      var keep := set id | id in executions && executions[id].workflowId == workflowId;
      var ids := Select(NewestFirst(), keep);
      SelectExactly(NewestFirst(), keep);
      SelectKeepsOrder(NewestFirst(), keep);
      Documents(ids, executions)
    }

    /**
     * `list`: of the fifty newest records, those whose workflow belongs to the
     * caller, each with its workflow's name, newest first; nothing without a caller.
     */
    method List(identity: Option<string>) returns (r: seq<ListedExecution>)
      requires Valid()
      ensures identity.None? ==> r == []
      ensures |r| <= RecentLimit
      ensures identity.Some? ==> forall k :: 0 <= k < |r| ==> IsListing(r[k], executions, workflows, identity.value)
      ensures identity.Some? ==>
        ListedIds(r) == set id | id in Recent() && Owns(executions[id], workflows, identity.value)
      ensures forall j, k :: 0 <= j < k < |r| ==> r[j].id > r[k].id
    {
      if identity.None? {
        return [];
      }
      var subject := identity.value;
      var recent := Recent();
      r := PushOwned(recent, identity.value);
      OwnedListingsExactly(recent, executions, workflows, identity.value);
      OwnedListingsOrder(recent, executions, workflows, identity.value);
    }

    /** The loop of `list`: walks `ids` and pushes each record whose workflow `subject` owns. */
    method PushOwned(ids: seq<ExecutionId>, subject: string) returns (r: seq<ListedExecution>)
      requires forall k :: 0 <= k < |ids| ==> ids[k] in executions
      ensures r == OwnedListings(ids, executions, workflows, subject)
    {
      r := [];
      for i := 0 to |ids|
        invariant r == OwnedListings(ids[..i], executions, workflows, subject)
      {
        var id := ids[i];
        var execution := executions[id];
        assert ids[..i + 1] == ids[..i] + [id];
        OwnedListingsAppend(ids[..i], id, executions, workflows, subject);
        if execution.workflowId in workflows && workflows[execution.workflowId].userId == subject {
          r := r + [ListedExecution(id, execution, workflows[execution.workflowId].name)];
        }
      }
      assert ids[..|ids|] == ids;
    }
  }
}
