/**
 * The workflow editor's client state: the default workflow, the merge rules
 * of a save, the per-node data merge, and the MCP server list.
 */
module WorkflowHook {
  import opened Values
  import Text

  datatype Position = Position(x: int, y: int)

  /** A node of the graph; `kind` is its `type` tag and `data` its shallow configuration object. */
  datatype WorkflowNode = WorkflowNode(id: string, kind: string, position: Position, data: map<string, Value>)

  datatype WorkflowEdge = WorkflowEdge(id: string, source: string, target: string)

  /** A workflow definition. Timestamps are milliseconds. */
  datatype Workflow = Workflow(
    id: string,
    name: string,
    description: Option<string>,
    nodes: seq<WorkflowNode>,
    edges: seq<WorkflowEdge>,
    createdAt: int,
    updatedAt: int)

  /** A `Partial<Workflow>`: `None` marks a field the caller did not supply. */
  datatype WorkflowUpdates = WorkflowUpdates(
    id: Option<string>,
    name: Option<string>,
    description: Option<string>,
    nodes: Option<seq<WorkflowNode>>,
    edges: Option<seq<WorkflowEdge>>,
    createdAt: Option<int>,
    updatedAt: Option<int>)

  const NoUpdates := WorkflowUpdates(None, None, None, None, None, None, None)

  const DefaultWorkflowName: string := "New Workflow"
  const StartKind: string := "start"
  const AgentKind: string := "agent"

  /** `workflow_${Date.now()}` */
  function GeneratedId(now: int): (id: string)
    ensures |id| > |"workflow_"| && id[..|"workflow_"|] == "workflow_"
    ensures id[|"workflow_"|..] == Text.IntToDecimal(now)
    ensures Text.ParseInt(id[|"workflow_"|..]) == Some(now)
  {
    var id := "workflow_" + Text.IntToDecimal(now);
    assert id[|"workflow_"|..] == Text.IntToDecimal(now);
    Text.IntToDecimalRoundTrip(now);
    id
  }

  /** Workflows generated at different instants get different ids. */
  lemma GeneratedIdInjective(t1: int, t2: int)
    requires GeneratedId(t1) == GeneratedId(t2)
    ensures t1 == t2
  {
  }

  // ---------------------------------------------------------------------------
  // Graph shape

  function NodeIds(nodes: seq<WorkflowNode>): (ids: seq<string>)
    ensures |ids| == |nodes| && forall k :: 0 <= k < |ids| ==> ids[k] == nodes[k].id
  {
    seq(|nodes|, k requires 0 <= k < |nodes| => nodes[k].id)
  }

  /**
   * Distinct node ids, edges between existing nodes, a start node, and no
   * edge into a start node. The default workflow has this shape and node data
   * edits keep it; the hook itself never checks it.
   */
  predicate WellFormed(w: Workflow) {
    var ids := NodeIds(w.nodes);
    && (forall j, k :: 0 <= j < k < |ids| ==> ids[j] != ids[k])
    && (forall k :: 0 <= k < |w.edges| ==> w.edges[k].source in ids && w.edges[k].target in ids)
    && (exists k :: 0 <= k < |w.nodes| && w.nodes[k].kind == StartKind)
    && (forall e, n :: 0 <= e < |w.edges| && 0 <= n < |w.nodes| && w.nodes[n].id == w.edges[e].target
          ==> w.nodes[n].kind != StartKind)
  }

  // ---------------------------------------------------------------------------
  // createNewWorkflow

  const StartNode := WorkflowNode("node_0", StartKind, Position(250, 100), map["label" := Str("Start")])

  const AgentNode := WorkflowNode("node_1", AgentKind, Position(250, 250), map[
    "label" := Str("Agent"),
    "name" := Str("My agent"),
    "instructions" := Str("You are a helpful assistant."),
    "model" := Str("gpt-4.1"),
    "includeChatHistory" := Bool(true),
    "tools" := Array([]),
    "outputFormat" := Str("Text")])

  const FirstEdge := WorkflowEdge("edge_0_1", "node_0", "node_1")

  /** The workflow `createNewWorkflow` builds at time `now`. */
  function NewWorkflow(now: int): (w: Workflow)
    ensures w.id == GeneratedId(now) && w.name == DefaultWorkflowName && w.description.None?
    ensures |w.nodes| == 2 && |w.edges| == 1
    ensures w.createdAt == now && w.updatedAt == now
  {
    Workflow(GeneratedId(now), DefaultWorkflowName, None, [StartNode, AgentNode], [FirstEdge], now, now)
  }

  /** A new workflow is a start node wired to one agent node, and it is well formed. */
  lemma NewWorkflowShape(now: int)
    ensures var w := NewWorkflow(now);
      && NodeIds(w.nodes) == ["node_0", "node_1"]
      && w.nodes[0].kind == StartKind && w.nodes[1].kind == AgentKind
      && w.edges == [WorkflowEdge("edge_0_1", "node_0", "node_1")]
      && w.name == DefaultWorkflowName && w.createdAt == w.updatedAt == now
      && WellFormed(w)
  {
    var w := NewWorkflow(now);
    assert w.nodes[0].kind == StartKind;
    assert NodeIds(w.nodes) == ["node_0", "node_1"];
  }

  // ---------------------------------------------------------------------------
  // saveWorkflow

  /** `{ ...workflow, ...updates, updatedAt: now }` */
  function Merge(w: Workflow, u: WorkflowUpdates, now: int): (r: Workflow)
    ensures r.id == u.id.GetOr(w.id) && r.name == u.name.GetOr(w.name)
    ensures r.description == if u.description.Some? then u.description else w.description
    ensures r.nodes == u.nodes.GetOr(w.nodes) && r.edges == u.edges.GetOr(w.edges)
    ensures r.createdAt == u.createdAt.GetOr(w.createdAt)
    ensures r.updatedAt == now
  {
    Workflow(
      u.id.GetOr(w.id),
      u.name.GetOr(w.name),
      if u.description.Some? then u.description else w.description,
      u.nodes.GetOr(w.nodes),
      u.edges.GetOr(w.edges),
      u.createdAt.GetOr(w.createdAt),
      now)
  }

  /** `{ ...u, ...v }`: every field either supplies, `v` winning. */
  function Combine(u: WorkflowUpdates, v: WorkflowUpdates): WorkflowUpdates {
    WorkflowUpdates(
      if v.id.Some? then v.id else u.id,
      if v.name.Some? then v.name else u.name,
      if v.description.Some? then v.description else u.description,
      if v.nodes.Some? then v.nodes else u.nodes,
      if v.edges.Some? then v.edges else u.edges,
      if v.createdAt.Some? then v.createdAt else u.createdAt,
      if v.updatedAt.Some? then v.updatedAt else u.updatedAt)
  }

  /** Saving with no updates only refreshes `updatedAt`. */
  lemma MergeNothing(w: Workflow, now: int)
    ensures Merge(w, NoUpdates, now) == w.(updatedAt := now)
  {
  }

  /** Two saves in a row are one save of the combined updates. */
  lemma MergeCombine(w: Workflow, u: WorkflowUpdates, v: WorkflowUpdates, t1: int, t2: int)
    ensures Merge(Merge(w, u, t1), v, t2) == Merge(w, Combine(u, v), t2)
  {
  }

  /** A supplied `updatedAt` never survives a save. */
  lemma MergeIgnoresUpdatedAt(w: Workflow, u: WorkflowUpdates, now: int)
    ensures Merge(w, u, now) == Merge(w, u.(updatedAt := None), now)
  {
  }

  /** The workflow `saveWorkflow` creates when there is none yet; `None` when nodes or edges are missing. */
  function Created(updates: Option<WorkflowUpdates>, now: int): (r: Option<Workflow>)
    ensures r.Some? <==> updates.Some? && updates.value.nodes.Some? && updates.value.edges.Some?
    ensures r.Some? ==> var u := updates.value;
      && r.value.nodes == u.nodes.value && r.value.edges == u.edges.value
      && r.value.id == (if Truthy(u.id) then u.id.value else GeneratedId(now))
      && r.value.name == (if Truthy(u.name) then u.name.value else DefaultWorkflowName)
      && r.value.description == u.description
      && r.value.createdAt == now && r.value.updatedAt == now
  {
    if updates.None? || updates.value.nodes.None? || updates.value.edges.None? then None
    else
      var u := updates.value;
      Some(Workflow(
        if Truthy(u.id) then u.id.value else GeneratedId(now),
        if Truthy(u.name) then u.name.value else DefaultWorkflowName,
        u.description,
        u.nodes.value,
        u.edges.value,
        now,
        now))
  }

  // ---------------------------------------------------------------------------
  // updateNodeData

  /** `nodes.map(node => node.id === nodeId ? { ...node, data: { ...node.data, ...data } } : node)` */
  function WithNodeData(nodes: seq<WorkflowNode>, nodeId: string, data: map<string, Value>): (r: seq<WorkflowNode>)
    ensures |r| == |nodes|
    ensures forall k :: 0 <= k < |r| && nodes[k].id != nodeId ==> r[k] == nodes[k]
    ensures forall k :: 0 <= k < |r| && nodes[k].id == nodeId ==>
      r[k] == nodes[k].(data := nodes[k].data + data)
  {
    seq(|nodes|, k requires 0 <= k < |nodes| =>
      if nodes[k].id == nodeId then nodes[k].(data := nodes[k].data + data) else nodes[k])
  }

  /**
   * In the node that is updated, every supplied key takes the supplied value,
   * every other key keeps its value, and no key is lost.
   */
  lemma WithNodeDataOverrides(nodes: seq<WorkflowNode>, nodeId: string, data: map<string, Value>, k: nat)
    requires k < |nodes| && nodes[k].id == nodeId
    ensures var d := WithNodeData(nodes, nodeId, data)[k].data;
      && d.Keys == nodes[k].data.Keys + data.Keys
      && (forall key :: key in data ==> d[key] == data[key])
      && (forall key :: key in nodes[k].data && key !in data ==> d[key] == nodes[k].data[key])
  {
  }

  /** Only `data` changes: ids, kinds and positions stay, so the graph keeps its shape. */
  lemma WithNodeDataKeepsGraph(w: Workflow, nodeId: string, data: map<string, Value>)
    ensures NodeIds(WithNodeData(w.nodes, nodeId, data)) == NodeIds(w.nodes)
    ensures WellFormed(w) ==> WellFormed(w.(nodes := WithNodeData(w.nodes, nodeId, data)))
  {
    var nodes := WithNodeData(w.nodes, nodeId, data);
    assert forall k :: 0 <= k < |nodes| ==> nodes[k].id == w.nodes[k].id && nodes[k].kind == w.nodes[k].kind;
    assert NodeIds(nodes) == NodeIds(w.nodes);
    if WellFormed(w) {
      var s :| 0 <= s < |w.nodes| && w.nodes[s].kind == StartKind;
      assert nodes[s].kind == StartKind;
    }
  }

  /** Applying the same data update twice is the same as applying it once. */
  lemma WithNodeDataIdempotent(nodes: seq<WorkflowNode>, nodeId: string, data: map<string, Value>)
    ensures WithNodeData(WithNodeData(nodes, nodeId, data), nodeId, data) == WithNodeData(nodes, nodeId, data)
  {
    var once := WithNodeData(nodes, nodeId, data);
    var twice := WithNodeData(once, nodeId, data);
    forall k | 0 <= k < |nodes|
      ensures twice[k] == once[k]
    {
      if nodes[k].id == nodeId {
        assert (nodes[k].data + data) + data == nodes[k].data + data;
      }
    }
  }

  /** The editor hook's state: the current workflow and what it has handed to the backend. */
  class WorkflowEditor {
    var workflow: Option<Workflow>
    /** The backend id of the workflow, once a save has reported one. */
    var convexId: Option<string>
    /** The workflow the pending debounced save will send; a newer save replaces it. */
    var pendingSave: Option<Workflow>

    constructor ()
      ensures workflow.None? && convexId.None? && pendingSave.None?
    {
      workflow := None;
      convexId := None;
      pendingSave := None;
    }

    /** `createNewWorkflow`: installs and returns the default workflow. */
    method CreateNewWorkflow(now: int) returns (w: Workflow)
      modifies this
      ensures w == NewWorkflow(now) && workflow == Some(w)
      ensures convexId == old(convexId) && pendingSave == old(pendingSave)
    {
      w := NewWorkflow(now);
      workflow := Some(w);
    }

    /**
     * `saveWorkflow`. Without a workflow it creates one from complete updates and
     * returns it as the body of the immediate save, or does nothing. With a
     * workflow it merges the updates and schedules the merged workflow as the
     * pending save, replacing any earlier one.
     */
    method SaveWorkflow(updates: Option<WorkflowUpdates>, now: int) returns (posted: Option<Workflow>)
      modifies this
      ensures old(workflow).None? ==>
        workflow == Created(updates, now) && posted == Created(updates, now) && pendingSave == old(pendingSave)
      ensures old(workflow).Some? ==>
        workflow == Some(Merge(old(workflow).value, updates.GetOr(NoUpdates), now))
        && pendingSave == workflow && posted.None?
      ensures convexId == old(convexId)
    {
      if workflow.None? {
        posted := Created(updates, now);
        if posted.None? {
          return;
        }
        workflow := posted;
        return;
      }
      var updated := Merge(workflow.value, updates.GetOr(NoUpdates), now);
      workflow := Some(updated);
      pendingSave := Some(updated);
      posted := None;
    }

    /** The handling of a save's response: a successful save that names an id records it. */
    method RecordSaveResponse(success: bool, workflowId: Option<string>)
      modifies this
      ensures convexId == if success && Truthy(workflowId) then workflowId else old(convexId)
      ensures workflow == old(workflow) && pendingSave == old(pendingSave)
    {
      if success && Truthy(workflowId) {
        convexId := workflowId;
      }
    }

    /** `updateNodes`: replaces the nodes of the current workflow; nothing without one. */
    method UpdateNodes(nodes: seq<WorkflowNode>, now: int)
      modifies this
      ensures old(workflow).None? ==> workflow == old(workflow) && pendingSave == old(pendingSave)
      ensures old(workflow).Some? ==>
        workflow == Some(old(workflow).value.(nodes := nodes, updatedAt := now)) && pendingSave == workflow
      ensures convexId == old(convexId)
    {
      if workflow.None? {
        return;
      }
      var _ := SaveWorkflow(Some(NoUpdates.(nodes := Some(nodes))), now);
    }

    /** `updateEdges`: replaces the edges of the current workflow; nothing without one. */
    method UpdateEdges(edges: seq<WorkflowEdge>, now: int)
      modifies this
      ensures old(workflow).None? ==> workflow == old(workflow) && pendingSave == old(pendingSave)
      ensures old(workflow).Some? ==>
        workflow == Some(old(workflow).value.(edges := edges, updatedAt := now)) && pendingSave == workflow
      ensures convexId == old(convexId)
    {
      if workflow.None? {
        return;
      }
      var _ := SaveWorkflow(Some(NoUpdates.(edges := Some(edges))), now);
    }

    /**
     * `updateNodeData`: merges `data` into the data of the node with that id;
     * nothing without a workflow. A well-formed graph stays well formed.
     */
    method UpdateNodeData(nodeId: string, data: map<string, Value>, now: int)
      modifies this
      ensures old(workflow).None? ==> workflow == old(workflow) && pendingSave == old(pendingSave)
      ensures old(workflow).Some? ==>
        var w := old(workflow).value;
        workflow == Some(w.(nodes := WithNodeData(w.nodes, nodeId, data), updatedAt := now))
        && pendingSave == workflow
      ensures old(workflow).Some? && WellFormed(old(workflow).value) ==> WellFormed(workflow.value)
      ensures convexId == old(convexId)
    {
      if workflow.None? {
        return;
      }
      WithNodeDataKeepsGraph(workflow.value, nodeId, data);
      UpdateNodes(WithNodeData(workflow.value.nodes, nodeId, data), now);
    }
  }

  // ---------------------------------------------------------------------------
  // useMCPServers

  /** An MCP server entry: its id and its other fields. */
  datatype McpServer = McpServer(id: string, settings: map<string, Value>)

  /** A `Partial<MCPServer>`. */
  datatype McpServerUpdates = McpServerUpdates(id: Option<string>, settings: map<string, Value>)

  /** `servers.find(s => s.id === id)`, as the index of the first match. */
  function FindServer(servers: seq<McpServer>, id: string): (r: Option<nat>)
    ensures r.Some? ==> r.value < |servers| && servers[r.value].id == id
    ensures r.Some? ==> forall k :: 0 <= k < r.value ==> servers[k].id != id
    ensures r.None? ==> forall k :: 0 <= k < |servers| ==> servers[k].id != id
  {
    if servers == [] then None
    else if servers[0].id == id then Some(0)
    else match FindServer(servers[1..], id)
      case Some(k) => Some(k + 1)
      case None => None
  }

  /** `{ ...existing, ...updates }` */
  function MergeServer(s: McpServer, u: McpServerUpdates): (r: McpServer)
    ensures r.id == u.id.GetOr(s.id)
    ensures r.settings.Keys == s.settings.Keys + u.settings.Keys
    ensures forall key :: key in u.settings ==> r.settings[key] == u.settings[key]
    ensures forall key :: key in s.settings && key !in u.settings ==> r.settings[key] == s.settings[key]
  {
    McpServer(u.id.GetOr(s.id), s.settings + u.settings)
  }

  /**
   * The server list hook. Storage is not part of this model: what the hook
   * hands to storage is kept in `saved`, and what storage returns on reload
   * is a parameter.
   */
  class McpServerList {
    var servers: seq<McpServer>
    /** Every server handed to storage, in order. */
    var saved: seq<McpServer>

    /** The hook once its mount effect has loaded `loaded` from storage. */
    constructor (loaded: seq<McpServer>)
      ensures servers == loaded && saved == []
    {
      servers := loaded;
      saved := [];
    }

    /** `addServer`: hands the server to storage and reloads the list. */
    method AddServer(server: McpServer, reloaded: seq<McpServer>)
      modifies this
      ensures saved == old(saved) + [server] && servers == reloaded
    {
      saved := saved + [server];
      servers := reloaded;
    }

    /**
     * `updateServer`: when a server with that id is listed, hands the first such
     * server merged with `updates` to storage and reloads; otherwise nothing changes.
     */
    method UpdateServer(id: string, updates: McpServerUpdates, reloaded: seq<McpServer>)
      modifies this
      ensures FindServer(old(servers), id).None? ==> servers == old(servers) && saved == old(saved)
      ensures FindServer(old(servers), id).Some? ==>
        saved == old(saved) + [MergeServer(old(servers)[FindServer(old(servers), id).value], updates)]
        && servers == reloaded
    {
      var found := FindServer(servers, id);
      if found.Some? {
        saved := saved + [MergeServer(servers[found.value], updates)];
        servers := reloaded;
      }
    }
  }
}
