/** The parsed form of an Alteryx workflow: tools (nodes), the connections
    between their anchors, and the read-only queries over them
    (models.py). Optional text fields of a node are "" when absent: every
    consumer only tests them for truthiness. */
module Models {
  import opened Wrappers
  import opened Text
  import Seqs

  datatype ToolCategory =
    | Input | Output | Preparation | Join | Transform | Parse | Reporting
    | Spatial | Predictive | Developer | InDatabase | Macro | Container | Unknown

  datatype MedallionLayer = Bronze | Silver | Gold

  /** One entry of a Summarize tool's aggregation list; each key may be missing. */
  datatype Aggregation = Aggregation(action: Option<String>, field: Option<String>, outputName: Option<String>)

  /** One entry of the `formulas` configuration list of a Formula tool. */
  datatype FormulaSpec = FormulaSpec(field: Option<String>, expression: Option<String>)

  /** One entry of the `sort_fields` configuration list of a Sort tool. */
  datatype SortField = SortField(field: Option<String>, order: Option<String>)

  datatype Node = Node(
    toolId: int,
    toolType: String,
    pluginName: String,
    category: ToolCategory,
    formulas: seq<FormulaSpec>,
    sortFields: seq<SortField>,
    isMacro: bool,
    macroPath: String,
    annotation: String,
    containerId: Option<int>,
    childToolIds: seq<int>,
    sourcePath: String,
    targetPath: String,
    connectionString: String,
    tableName: String,
    sqlQuery: String,
    expression: String,
    joinKeys: seq<String>,
    joinType: String,
    groupByFields: seq<String>,
    aggregations: seq<Aggregation>,
    selectedFields: seq<String>)
  {
    /** `get_display_name`: the plugin name, followed by ": " and the
        annotation when there is one. */
    function DisplayName(): (r: String)
      ensures annotation == [] ==> r == pluginName
      ensures annotation != [] ==>
        StartsWith(r, pluginName + ": ") && EndsWith(r, annotation)
        && |r| == |pluginName| + 2 + |annotation|
    {
      if annotation != [] then pluginName + ": " + annotation else pluginName
    }
  }

  datatype Connection = Connection(originId: int, originAnchor: String, destinationId: int, destinationAnchor: String)

  datatype Workflow = Workflow(
    name: String,
    nodes: seq<Node>,
    connections: seq<Connection>,
    sources: seq<Node>,
    targets: seq<Node>)
  {
    /** `get_node_by_id`: the first node in list order with the id, if any. */
    function NodeById(id: int): (r: Option<Node>)
      ensures r.None? <==> forall i :: 0 <= i < |nodes| ==> nodes[i].toolId != id
      ensures r.Some? ==> exists i :: 0 <= i < |nodes| && nodes[i] == r.value && r.value.toolId == id
                                      && forall j :: 0 <= j < i ==> nodes[j].toolId != id
    {
      match FirstNodeWithId(nodes, id)
      case None => None
      case Some(i) => Some(nodes[i])
    }

    /** `get_downstream_nodes`: the nodes, in node-list order, that some
        connection from `id` reaches. */
    function DownstreamNodes(id: int): (r: seq<Node>)
      ensures forall n :: n in r <==> n in nodes && HasEdge(id, n.toolId)
      ensures forall n :: multiset(r)[n] == if HasEdge(id, n.toolId) then multiset(nodes)[n] else 0
    {
      Seqs.Filter(nodes, (n: Node) => HasEdge(id, n.toolId))
    }

    /** `get_upstream_nodes`: the nodes, in node-list order, from which some
        connection reaches `id`. */
    function UpstreamNodes(id: int): (r: seq<Node>)
      ensures forall n :: n in r <==> n in nodes && HasEdge(n.toolId, id)
      ensures forall n :: multiset(r)[n] == if HasEdge(n.toolId, id) then multiset(nodes)[n] else 0
    {
      Seqs.Filter(nodes, (n: Node) => HasEdge(n.toolId, id))
    }

    /** Some connection goes from tool u to tool v. */
    predicate HasEdge(u: int, v: int) {
      exists i :: 0 <= i < |connections| && connections[i].originId == u && connections[i].destinationId == v
    }

    /** `get_upstream_connections`: the connections into `id`, in order and
        with repetitions. */
    function UpstreamConnections(id: int): (r: seq<Connection>)
      ensures forall c :: c in r <==> c in connections && c.destinationId == id
      ensures forall c :: multiset(r)[c] == if c.destinationId == id then multiset(connections)[c] else 0
    {
      Seqs.Filter(connections, (c: Connection) => c.destinationId == id)
    }

    /** `get_upstream_node_by_anchor`: the origin node of the first connection
        into `id` whose destination anchor equals `anchor` ignoring case. */
    function UpstreamNodeByAnchor(id: int, anchor: String): (r: Option<Node>)
      ensures FirstAnchorMatch(connections, id, anchor).None? ==> r.None?
      ensures FirstAnchorMatch(connections, id, anchor).Some? ==>
        r == NodeById(connections[FirstAnchorMatch(connections, id, anchor).value].originId)
    {
      match FirstAnchorMatch(connections, id, anchor)
      case None => None
      case Some(k) => NodeById(connections[k].originId)
    }
  }

  /** The index of the first node with the id. */
  function FirstNodeWithId(nodes: seq<Node>, id: int): (r: Option<nat>)
    ensures r.None? <==> forall i :: 0 <= i < |nodes| ==> nodes[i].toolId != id
    ensures r.Some? ==> r.value < |nodes| && nodes[r.value].toolId == id
                        && forall j :: 0 <= j < r.value ==> nodes[j].toolId != id
  {
    if nodes == [] then None
    else if nodes[0].toolId == id then Some(0)
    else match FirstNodeWithId(nodes[1..], id)
      case None => None
      case Some(k) => Some(k + 1)
  }

  /** A connection into `id` through an anchor named `anchor`, ignoring case. */
  predicate AnchorMatches(c: Connection, id: int, anchor: String) {
    c.destinationId == id && Lower(c.destinationAnchor) == Lower(anchor)
  }

  /** The index of the first connection into `id` through `anchor`. */
  function FirstAnchorMatch(conns: seq<Connection>, id: int, anchor: String): (r: Option<nat>)
    ensures r.None? <==> forall i :: 0 <= i < |conns| ==> !AnchorMatches(conns[i], id, anchor)
    ensures r.Some? ==> r.value < |conns| && AnchorMatches(conns[r.value], id, anchor)
                        && forall j :: 0 <= j < r.value ==> !AnchorMatches(conns[j], id, anchor)
  {
    if conns == [] then None
    else if AnchorMatches(conns[0], id, anchor) then Some(0)
    else match FirstAnchorMatch(conns[1..], id, anchor)
      case None => None
      case Some(k) => Some(k + 1)
  }

  /** The anchor lookup commits to the first matching connection: when that
      connection's origin is not a node, the answer is None even if a later
      connection through the same anchor has a known origin. */
  lemma AnchorLookupDoesNotFallThrough(wf: Workflow, id: int, anchor: String, k: nat)
    requires k < |wf.connections| && AnchorMatches(wf.connections[k], id, anchor)
    requires forall j :: 0 <= j < k ==> !AnchorMatches(wf.connections[j], id, anchor)
    requires wf.NodeById(wf.connections[k].originId).None?
    ensures wf.UpstreamNodeByAnchor(id, anchor).None?
  {
    var r := FirstAnchorMatch(wf.connections, id, anchor);
    assert r.Some?;
  }

  /** Parallel connections do not repeat nodes: adding a copy of an existing
      connection changes neither neighbour list. */
  lemma ParallelConnectionChangesNothing(wf: Workflow, c: Connection, id: int)
    requires c in wf.connections
    ensures wf.(connections := wf.connections + [c]).DownstreamNodes(id) == wf.DownstreamNodes(id)
    ensures wf.(connections := wf.connections + [c]).UpstreamNodes(id) == wf.UpstreamNodes(id)
  {
    var wf' := wf.(connections := wf.connections + [c]);
    forall u, v ensures wf'.HasEdge(u, v) == wf.HasEdge(u, v) {
      if wf'.HasEdge(u, v) {
        var i :| 0 <= i < |wf'.connections| && wf'.connections[i].originId == u && wf'.connections[i].destinationId == v;
        if i == |wf.connections| {
          var j :| 0 <= j < |wf.connections| && wf.connections[j] == c;
          assert wf.connections[j].originId == u && wf.connections[j].destinationId == v;
        } else {
          assert wf.connections[i] == wf'.connections[i];
        }
      }
      if wf.HasEdge(u, v) {
        var i :| 0 <= i < |wf.connections| && wf.connections[i].originId == u && wf.connections[i].destinationId == v;
        assert wf'.connections[i] == wf.connections[i];
      }
    }
    Seqs.FilterAgree(wf.nodes, (n: Node) => wf'.HasEdge(id, n.toolId), (n: Node) => wf.HasEdge(id, n.toolId));
    Seqs.FilterAgree(wf.nodes, (n: Node) => wf'.HasEdge(n.toolId, id), (n: Node) => wf.HasEdge(n.toolId, id));
  }

  /** With distinct nodes, each neighbour appears once however many
      connections lead to it. */
  lemma NeighboursAreDistinct(wf: Workflow, id: int)
    requires Seqs.Distinct(wf.nodes)
    ensures Seqs.Distinct(wf.DownstreamNodes(id)) && Seqs.Distinct(wf.UpstreamNodes(id))
  {
    Seqs.FilterDistinct(wf.nodes, (n: Node) => wf.HasEdge(id, n.toolId));
    Seqs.FilterDistinct(wf.nodes, (n: Node) => wf.HasEdge(n.toolId, id));
  }
}
