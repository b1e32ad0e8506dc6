/** The transformation analyzer (transformation_analyzer.py): the adjacency
    lists of a workflow, the execution order of its tools, the paths from a
    source to a target, the medallion layer suggested for each tool, the
    kind of each source and target, and the older expression conversion
    with its IIF, IsNull and IsEmpty passes. */
module Analyzer {
  import opened Wrappers
  import opened Text
  import opened Models
  import ToolMappings
  import Formula
  import Seqs

  // ---------------------------------------------------------------------
  // Adjacency lists
  // ---------------------------------------------------------------------

  /** The two ends of a connection, read along it (downstream) or against
      it (upstream). */
  function From(c: Connection, backward: bool): int {
    if backward then c.destinationId else c.originId
  }

  function To(c: Connection, backward: bool): int {
    if backward then c.originId else c.destinationId
  }

  /** The neighbours of u, in connection order and with one entry per
      connection: downstream the destinations of the connections leaving u,
      upstream the origins of those entering u. */
  function Neighbours(conns: seq<Connection>, u: int, backward: bool): (r: seq<int>)
    ensures |r| <= |conns|
  {
    if conns == [] then []
    else
      var c := conns[|conns| - 1];
      Neighbours(conns[..|conns| - 1], u, backward) + (if From(c, backward) == u then [To(c, backward)] else [])
  }

  /** `defaultdict(list)` read with `.get(k, [])`. */
  function Lookup(m: map<int, seq<int>>, k: int): seq<int> {
    if k in m then m[k] else []
  }

  /** The dictionary `_build_graph` fills: one append per connection, at the
      key of the connection's near end. */
  function Adjacency(conns: seq<Connection>, backward: bool): (m: map<int, seq<int>>)
  {
    if conns == [] then map[]
    else
      var c := conns[|conns| - 1];
      var m := Adjacency(conns[..|conns| - 1], backward);
      m[From(c, backward) := Lookup(m, From(c, backward)) + [To(c, backward)]]
  }

  /** The key set is the set of near ends, and each list holds the
      neighbours in connection order. */
  lemma {:induction false} AdjacencyLists(conns: seq<Connection>, backward: bool, u: int)
    ensures u in Adjacency(conns, backward) <==> exists i :: 0 <= i < |conns| && From(conns[i], backward) == u
    ensures Lookup(Adjacency(conns, backward), u) == Neighbours(conns, u, backward)
  {
    if conns != [] {
      var init := conns[..|conns| - 1];
      AdjacencyLists(init, backward, u);
      if exists i :: 0 <= i < |conns| && From(conns[i], backward) == u {
        var i :| 0 <= i < |conns| && From(conns[i], backward) == u;
        if i < |init| {
          assert From(init[i], backward) == u;
        }
      }
      if exists i :: 0 <= i < |init| && From(init[i], backward) == u {
        var i :| 0 <= i < |init| && From(init[i], backward) == u;
        assert From(conns[i], backward) == u;
      }
    }
  }

  /** v is a neighbour of u exactly when a connection joins them in that
      direction. */
  lemma {:induction false} NeighboursAreEdges(conns: seq<Connection>, u: int, v: int, backward: bool)
    ensures v in Neighbours(conns, u, backward) <==>
      exists i :: 0 <= i < |conns| && From(conns[i], backward) == u && To(conns[i], backward) == v
  {
    if conns != [] {
      var init := conns[..|conns| - 1];
      NeighboursAreEdges(init, u, v, backward);
      if exists i :: 0 <= i < |conns| && From(conns[i], backward) == u && To(conns[i], backward) == v {
        var i :| 0 <= i < |conns| && From(conns[i], backward) == u && To(conns[i], backward) == v;
        if i < |init| {
          assert From(init[i], backward) == u && To(init[i], backward) == v;
        }
      }
      if exists i :: 0 <= i < |init| && From(init[i], backward) == u && To(init[i], backward) == v {
        var i :| 0 <= i < |init| && From(init[i], backward) == u && To(init[i], backward) == v;
        assert From(conns[i], backward) == u && To(conns[i], backward) == v;
      }
    }
  }

  /** The total length of the lists at the given keys. */
  function TotalLength(conns: seq<Connection>, keys: seq<int>, backward: bool): nat {
    if keys == [] then 0
    else TotalLength(conns, keys[..|keys| - 1], backward) + |Neighbours(conns, keys[|keys| - 1], backward)|
  }

  /** One more connection adds one entry to the lists at the given distinct
      keys when its near end is among them. */
  lemma {:induction false} TotalLengthSnoc(conns: seq<Connection>, c: Connection, keys: seq<int>, backward: bool)
    requires Seqs.Distinct(keys)
    ensures TotalLength(conns + [c], keys, backward)
      == TotalLength(conns, keys, backward) + (if From(c, backward) in keys then 1 else 0)
  {
    var conns' := conns + [c];
    assert conns'[..|conns'| - 1] == conns;
    if keys != [] {
      var init := keys[..|keys| - 1];
      assert Seqs.Distinct(init);
      TotalLengthSnoc(conns, c, init, backward);
      assert From(c, backward) in keys <==> From(c, backward) in init || From(c, backward) == keys[|keys| - 1] by {
        assert keys == init + [keys[|keys| - 1]];
      }
    }
  }

  /** Each map's lists hold one entry per connection in all: listing the
      near ends once each, the lengths add up to the number of
      connections. */
  lemma {:induction false} TotalLengthIsConnections(conns: seq<Connection>, keys: seq<int>, backward: bool)
    requires Seqs.Distinct(keys)
    requires forall i :: 0 <= i < |conns| ==> From(conns[i], backward) in keys
    ensures TotalLength(conns, keys, backward) == |conns|
  {
    if conns == [] {
      TotalLengthEmpty(keys, backward);
    } else {
      var init := conns[..|conns| - 1];
      TotalLengthIsConnections(init, keys, backward);
      assert init + [conns[|conns| - 1]] == conns;
      TotalLengthSnoc(init, conns[|conns| - 1], keys, backward);
    }
  }

  lemma {:induction false} TotalLengthEmpty(keys: seq<int>, backward: bool)
    ensures TotalLength([], keys, backward) == 0
  {
    if keys != [] {
      TotalLengthEmpty(keys[..|keys| - 1], backward);
    }
  }

  /** Every id the analysis can meet: the tools and both ends of every
      connection. */
  ghost function Ids(wf: Workflow): set<int> {
    (set n | n in wf.nodes :: n.toolId)
    + (set c | c in wf.connections :: c.originId)
    + (set c | c in wf.connections :: c.destinationId)
  }

  /** A neighbour is the far end of some connection, so an id of the
      workflow. */
  lemma NeighbourIsId(wf: Workflow, u: int, v: int, backward: bool)
    requires v in Neighbours(wf.connections, u, backward)
    ensures v in Ids(wf)
  {
    NeighboursAreEdges(wf.connections, u, v, backward);
    var i :| 0 <= i < |wf.connections| && From(wf.connections[i], backward) == u && To(wf.connections[i], backward) == v;
    assert wf.connections[i] in wf.connections;
  }

  /** No connection leaves (downstream) or enters (upstream) u exactly when
      its list is empty. */
  lemma {:induction false} NeighboursEmpty(conns: seq<Connection>, u: int, backward: bool)
    ensures Neighbours(conns, u, backward) == [] <==> forall i :: 0 <= i < |conns| ==> From(conns[i], backward) != u
  {
    if conns != [] {
      var init := conns[..|conns| - 1];
      NeighboursEmpty(init, u, backward);
      assert forall i :: 0 <= i < |init| ==> init[i] == conns[i];
    }
  }

  // ---------------------------------------------------------------------
  // Execution order
  // ---------------------------------------------------------------------

  /** The connections admit a numbering that grows along every connection:
      the workflow has no cycle. */
  ghost predicate RankedBy(conns: seq<Connection>, rank: int -> int) {
    forall i :: 0 <= i < |conns| ==> rank(conns[i].originId) < rank(conns[i].destinationId)
  }

  ghost predicate Acyclic(conns: seq<Connection>) {
    exists rank: int -> int :: RankedBy(conns, rank)
  }

  /** Every id of the order comes after all of its upstream neighbours. */
  predicate Closed(up: map<int, seq<int>>, order: seq<int>) {
    forall k :: 0 <= k < |order| ==> UpstreamBefore(up, order, k)
  }

  predicate UpstreamBefore(up: map<int, seq<int>>, order: seq<int>, k: nat)
    requires k < |order|
  {
    forall u :: u in Lookup(up, order[k]) ==> u in order[..k]
  }

  /** The ids the DFS has finished are visited and listed once each. */
  predicate OrderInv(visited: set<int>, order: seq<int>, ids: set<int>) {
    (forall x :: x in order ==> x in visited) && visited <= ids && Seqs.Distinct(order)
  }

  lemma ClosedSnoc(up: map<int, seq<int>>, order: seq<int>, x: int)
    requires Closed(up, order) && forall u :: u in Lookup(up, x) ==> u in order
    ensures Closed(up, order + [x])
  {
    var o := order + [x];
    forall k | 0 <= k < |o|
      ensures UpstreamBefore(up, o, k)
    {
      if k < |order| {
        assert UpstreamBefore(up, order, k);
        assert o[..k] == order[..k] && o[k] == order[k];
      } else {
        assert o[..k] == order;
      }
    }
  }

  /** Along an upstream list the rank goes down. */
  lemma UpstreamRank(conns: seq<Connection>, rank: int -> int, v: int, u: int)
    requires RankedBy(conns, rank) && u in Lookup(Adjacency(conns, true), v)
    ensures rank(u) < rank(v)
  {
    AdjacencyLists(conns, true, v);
    NeighboursAreEdges(conns, v, u, true);
  }

  /** In a closed order every connection's origin is listed before its
      destination. */
  predicate OriginsFirst(conns: seq<Connection>, order: seq<int>) {
    forall i, p :: 0 <= i < |conns| && 0 <= p < |order| && order[p] == conns[i].destinationId ==>
      conns[i].originId in order[..p]
  }

  lemma ClosedOriginsFirst(conns: seq<Connection>, order: seq<int>)
    requires Closed(Adjacency(conns, true), order)
    ensures OriginsFirst(conns, order)
  {
    forall i, p | 0 <= i < |conns| && 0 <= p < |order| && order[p] == conns[i].destinationId
      ensures conns[i].originId in order[..p]
    {
      var v, u := conns[i].destinationId, conns[i].originId;
      AdjacencyLists(conns, true, v);
      NeighboursAreEdges(conns, v, u, true);
      assert UpstreamBefore(Adjacency(conns, true), order, p);
    }
  }

  lemma PrefixMembers<T>(a: seq<T>, b: seq<T>)
    requires a <= b
    ensures forall x :: x in a ==> x in b
  {
    assert forall k :: 0 <= k < |a| ==> a[k] == b[k];
  }

  /** Every id still being visited has a rank above r. */
  ghost predicate StackAbove(visited: set<int>, order: seq<int>, rank: int -> int, r: int) {
    forall s :: s in visited && s !in order ==> rank(s) > r
  }

  /** What `dfs(id)` guarantees: the invariant is kept, id is visited, the
      visited set and the order only grow, the ids still being visited are
      the same, and an acyclic workflow keeps the order closed. */
  ghost predicate Visited(up: map<int, seq<int>>, ids: set<int>, ranked: bool, id: int,
                          visited: set<int>, order: seq<int>, visited': set<int>, order': seq<int>)
  {
    && OrderInv(visited', order', ids)
    && id in visited' && visited <= visited' && order <= order'
    && (forall x :: x in visited' && x !in order' <==> x in visited && x !in order)
    && (ranked ==> Closed(up, order'))
  }

  /** The state of `dfs(id)` after its first j upstream neighbours: id is
      being visited, and in an acyclic workflow those neighbours are listed. */
  ghost predicate Visiting(up: map<int, seq<int>>, ids: set<int>, ranked: bool, id: int,
                           visited: set<int>, order: seq<int>, j: nat, visited': set<int>, order': seq<int>)
  {
    && OrderInv(visited', order', ids)
    && id in visited' && visited + {id} <= visited' && order <= order'
    && (forall x :: x in visited' && x !in order' <==> (x in visited && x !in order) || x == id)
    && (ranked ==> Closed(up, order') && forall k :: 0 <= k < j && k < |Lookup(up, id)| ==> Lookup(up, id)[k] in order')
  }

  /** While id is being visited, its upstream neighbour u ranks below every
      id still being visited. */
  lemma StackAboveNeighbour(visited: set<int>, order: seq<int>, visited': set<int>, order': seq<int>,
                            rank: int -> int, id: int, u: int)
    requires StackAbove(visited, order, rank, rank(id)) && rank(u) < rank(id)
    requires forall x :: x in visited' && x !in order' <==> (x in visited && x !in order) || x == id
    ensures StackAbove(visited', order', rank, rank(u))
  {
  }

  /** Visiting the j-th upstream neighbour u keeps the state of `dfs(id)`;
      in an acyclic workflow u is then listed, since it ranks below every id
      still being visited. */
  lemma VisitingStep(up: map<int, seq<int>>, ids: set<int>, ranked: bool, rank: int -> int, id: int,
                     visited: set<int>, order: seq<int>, j: nat,
                     v1: set<int>, o1: seq<int>, v2: set<int>, o2: seq<int>)
    requires j < |Lookup(up, id)|
    requires Visiting(up, ids, ranked, id, visited, order, j, v1, o1)
    requires Visited(up, ids, ranked, Lookup(up, id)[j], v1, o1, v2, o2)
    requires ranked ==> rank(Lookup(up, id)[j]) < rank(id) && StackAbove(visited, order, rank, rank(id))
    ensures Visiting(up, ids, ranked, id, visited, order, j + 1, v2, o2)
  {
    if ranked {
      var u := Lookup(up, id)[j];
      PrefixMembers(o1, o2);
      assert u in o2;
    }
  }

  /** Once all upstream neighbours are visited, listing id ends `dfs(id)`. */
  lemma VisitingDone(up: map<int, seq<int>>, ids: set<int>, ranked: bool, id: int,
                     visited: set<int>, order: seq<int>, v: set<int>, o: seq<int>)
    requires Visiting(up, ids, ranked, id, visited, order, |Lookup(up, id)|, v, o)
    requires id !in visited && id in ids
    ensures Visited(up, ids, ranked, id, visited, order, v, o + [id])
  {
    var ups := Lookup(up, id);
    if ranked {
      forall w | w in ups
        ensures w in o
      {
        var k :| 0 <= k < |ups| && ups[k] == w;
      }
      ClosedSnoc(up, o, id);
    }
    assert id !in o;
  }

  /** Between two top-level calls of `dfs` nothing is being visited. */
  ghost predicate Finished(up: map<int, seq<int>>, ids: set<int>, ranked: bool, visited: set<int>, order: seq<int>) {
    OrderInv(visited, order, ids) && (forall x :: x in visited ==> x in order) && (ranked ==> Closed(up, order))
  }

  /** A top-level call of `dfs` lists its id and keeps what was listed. */
  lemma FinishedStep(up: map<int, seq<int>>, ids: set<int>, ranked: bool, id: int,
                     v1: set<int>, o1: seq<int>, v2: set<int>, o2: seq<int>)
    requires Finished(up, ids, ranked, v1, o1) && Visited(up, ids, ranked, id, v1, o1, v2, o2)
    ensures Finished(up, ids, ranked, v2, o2) && id in o2 && forall x :: x in o1 ==> x in o2
  {
    PrefixMembers(o1, o2);
  }

  // ---------------------------------------------------------------------
  // Paths between two tools
  // ---------------------------------------------------------------------

  /** p follows connections from its first id to its last and repeats no id. */
  ghost predicate SimplePath(wf: Workflow, p: seq<int>) {
    p != [] && Seqs.Distinct(p) && forall i :: 0 <= i < |p| - 1 ==> wf.HasEdge(p[i], p[i + 1])
  }

  /** p is a simple path that begins with `path` and ends at `end`. */
  ghost predicate Completes(wf: Workflow, path: seq<int>, end: int, p: seq<int>) {
    SimplePath(wf, p) && path <= p && p[|p| - 1] == end
  }

  /** What one call of the nested `dfs` of `_find_all_paths` does to the
      list `paths` (`found` afterwards): a full list stays as it is, the list
      never grows past `maxPaths`, every path added completes the stack
      `path`, unless the cap was reached every completion is there, and a
      stack that has reached `end` is added exactly once, as it stands. */
  ghost predicate Explored(wf: Workflow, path: seq<int>, end: int, maxPaths: int,
                           paths: seq<seq<int>>, found: seq<seq<int>>) {
    && paths <= found
    && (|paths| >= maxPaths ==> found == paths)
    && (|paths| < maxPaths ==> |found| <= maxPaths)
    && (forall k :: |paths| <= k < |found| ==> Completes(wf, path, end, found[k]))
    && (|found| < maxPaths ==> forall q :: Completes(wf, path, end, q) ==> q in found)
    && (path != [] && path[|path| - 1] == end && |paths| < maxPaths ==> found == paths + [path])
  }

  /** The loop of `dfs` over the first j downstream neighbours `next` of the
      top of the stack. */
  ghost predicate Exploring(wf: Workflow, path: seq<int>, end: int, maxPaths: int,
                            paths: seq<seq<int>>, next: seq<int>, j: nat, found: seq<seq<int>>)
    requires j <= |next|
  {
    && paths <= found && |found| <= maxPaths
    && (forall k :: |paths| <= k < |found| ==> Completes(wf, path, end, found[k]))
    && (|found| < maxPaths ==>
          forall q :: Completes(wf, path, end, q) && |q| > |path| && q[|path|] in next[..j] ==> q in found)
  }

  /** One more id on the stack, reached by a connection, keeps it simple. */
  lemma SimplePathSnoc(wf: Workflow, path: seq<int>, v: int)
    requires SimplePath(wf, path) && v !in path && wf.HasEdge(path[|path| - 1], v)
    ensures SimplePath(wf, path + [v])
  {
    var p := path + [v];
    forall i | 0 <= i < |p| - 1
      ensures wf.HasEdge(p[i], p[i + 1])
    {
      if i < |path| - 1 {
        assert p[i] == path[i] && p[i + 1] == path[i + 1];
      }
    }
  }

  /** The id after the stack in a completion is not on the stack. */
  lemma CompletionLeavesStack(wf: Workflow, path: seq<int>, end: int, q: seq<int>)
    requires Completes(wf, path, end, q) && |q| > |path|
    ensures q[|path|] !in path
  {
  }

  /** A stack that has reached `end` completes only to itself. */
  lemma CompletionAtEnd(wf: Workflow, path: seq<int>, end: int, q: seq<int>)
    requires Completes(wf, path, end, q) && path != [] && path[|path| - 1] == end
    ensures q == path
  {
  }

  lemma ExploringStart(wf: Workflow, path: seq<int>, end: int, maxPaths: int, paths: seq<seq<int>>, next: seq<int>)
    requires |paths| < maxPaths
    ensures Exploring(wf, path, end, maxPaths, paths, next, 0, paths)
  {
  }

  /** One neighbour: skipped when on the stack, explored otherwise. */
  lemma ExploringStep(wf: Workflow, path: seq<int>, end: int, maxPaths: int, paths: seq<seq<int>>,
                      next: seq<int>, j: nat, found: seq<seq<int>>, found': seq<seq<int>>)
    requires j < |next| && path != []
    requires Exploring(wf, path, end, maxPaths, paths, next, j, found)
    requires next[j] in path ==> found' == found
    requires next[j] !in path ==> Explored(wf, path + [next[j]], end, maxPaths, found, found')
    ensures Exploring(wf, path, end, maxPaths, paths, next, j + 1, found')
  {
    var v := next[j];
    assert paths <= found';
    forall k | |paths| <= k < |found'|
      ensures Completes(wf, path, end, found'[k])
    {
      if k < |found| {
        assert found'[k] == found[k];
      } else {
        assert path <= path + [v];
      }
    }
    if |found'| < maxPaths {
      forall q | Completes(wf, path, end, q) && |q| > |path| && q[|path|] in next[..j + 1]
        ensures q in found'
      {
        if q[|path|] in next[..j] {
          assert q in found;
          PrefixMembers(found, found');
        } else {
          assert q[|path|] == v;
          CompletionLeavesStack(wf, path, end, q);
          assert path + [v] <= q;
        }
      }
    }
  }

  /** After every neighbour of a stack top other than `end`, the call has
      done what `Explored` says. */
  lemma ExploringDone(wf: Workflow, path: seq<int>, end: int, maxPaths: int, paths: seq<seq<int>>,
                      next: seq<int>, found: seq<seq<int>>)
    requires path != [] && path[|path| - 1] != end && |paths| < maxPaths
    requires forall v :: wf.HasEdge(path[|path| - 1], v) ==> v in next
    requires Exploring(wf, path, end, maxPaths, paths, next, |next|, found)
    ensures Explored(wf, path, end, maxPaths, paths, found)
  {
    assert next[..|next|] == next;
    if |found| < maxPaths {
      forall q | Completes(wf, path, end, q)
        ensures q in found
      {
        assert |q| > |path|;
        assert q[|path| - 1] == path[|path| - 1];
        assert wf.HasEdge(q[|path| - 1], q[|path|]);
      }
    }
  }

  /** A stack that has reached `end` is a path of its own. */
  lemma ExploredAtEnd(wf: Workflow, path: seq<int>, end: int, maxPaths: int, paths: seq<seq<int>>)
    requires SimplePath(wf, path) && path[|path| - 1] == end && |paths| < maxPaths
    ensures Explored(wf, path, end, maxPaths, paths, paths + [path])
  {
    var found := paths + [path];
    assert found[|paths|] == path;
    forall q | Completes(wf, path, end, q)
      ensures q in found
    {
      CompletionAtEnd(wf, path, end, q);
    }
  }

  /** The downstream list of u holds exactly the destinations of the
      connections leaving u. */
  lemma DownstreamEdges(wf: Workflow, u: int, v: int)
    ensures v in Lookup(Adjacency(wf.connections, false), u) <==> wf.HasEdge(u, v)
  {
    AdjacencyLists(wf.connections, false, u);
    NeighboursAreEdges(wf.connections, u, v, false);
  }

  /** The cap `get_data_lineage` leaves `_find_all_paths` at. */
  const MaxPaths := 10

  /** The tools along a path of ids, in order; ids that are not tools are
      dropped. */
  function PathNodes(wf: Workflow, ids: seq<int>): (r: seq<Node>)
    ensures |r| <= |ids|
    ensures forall n :: n in r <==> exists i :: 0 <= i < |ids| && wf.NodeById(ids[i]) == Some(n)
  {
    if ids == [] then []
    else
      var init := ids[..|ids| - 1];
      var rest := PathNodes(wf, init);
      assert forall i :: 0 <= i < |init| ==> ids[i] == init[i];
      match wf.NodeById(ids[|ids| - 1])
      case Some(n) => rest + [n]
      case None => rest
  }

  // ---------------------------------------------------------------------
  // Medallion layers
  // ---------------------------------------------------------------------

  /** The layer `suggest_medallion_mapping` gives a tool, from the downstream
      lists: none for a container; otherwise the layer of its category, or
      gold when no connection leaves it. A Summarize tool without outgoing
      connections is moved to gold, where the rule before has put it already. */
  function SuggestedLayer(down: map<int, seq<int>>, n: Node): Option<MedallionLayer> {
    if n.category == Container then None
    else
      var isFinal := Lookup(down, n.toolId) == [];
      var layer := ToolMappings.MedallionLayerFor(n.category, isFinal);
      if layer.None? then None
      else if n.category == Transform && n.pluginName == "Summarize" && isFinal then Some(Gold)
      else layer
  }

  /** The list of one layer: the tools in that layer, in tool order. */
  function InLayer(down: map<int, seq<int>>, nodes: seq<Node>, layer: MedallionLayer): seq<Node> {
    if nodes == [] then []
    else
      var n := nodes[|nodes| - 1];
      InLayer(down, nodes[..|nodes| - 1], layer) + (if SuggestedLayer(down, n) == Some(layer) then [n] else [])
  }

  /** One more element adds one to its own count and nothing to the others. */
  lemma CountSnoc<T>(init: seq<T>, last: T, x: T)
    ensures multiset(init + [last])[x] == multiset(init)[x] + (if last == x then 1 else 0)
  {
    assert multiset(init + [last]) == multiset(init) + multiset{last};
  }

  /** The tools of a layer are the tools assigned to it, each as often as it
      is listed among the tools. */
  lemma {:induction false} InLayerCounts(down: map<int, seq<int>>, nodes: seq<Node>, layer: MedallionLayer, n: Node)
    ensures multiset(InLayer(down, nodes, layer))[n] ==
            if SuggestedLayer(down, n) == Some(layer) then multiset(nodes)[n] else 0
  {
    if nodes != [] {
      var init, last := nodes[..|nodes| - 1], nodes[|nodes| - 1];
      InLayerCounts(down, init, layer, n);
      assert nodes == init + [last];
      CountSnoc(init, last, n);
      var before := InLayer(down, init, layer);
      if SuggestedLayer(down, last) == Some(layer) {
        assert InLayer(down, nodes, layer) == before + [last];
        CountSnoc(before, last, n);
      } else {
        assert InLayer(down, nodes, layer) == before + [];
        assert before + [] == before;
      }
    }
  }

  /** Every tool but a container is in exactly one of the three lists, as
      often as it is listed among the tools; a container is in none. */
  lemma LayersPartition(down: map<int, seq<int>>, nodes: seq<Node>, n: Node)
    ensures multiset(InLayer(down, nodes, Bronze))[n] + multiset(InLayer(down, nodes, Silver))[n]
            + multiset(InLayer(down, nodes, Gold))[n]
         == if n.category == Container then 0 else multiset(nodes)[n]
  {
    InLayerCounts(down, nodes, Bronze, n);
    InLayerCounts(down, nodes, Silver, n);
    InLayerCounts(down, nodes, Gold, n);
    ToolMappings.MedallionLayerTable(n.category);
  }

  /** The three lists hold the tools of their layer among `nodes`. */
  ghost predicate Layers(down: map<int, seq<int>>, nodes: seq<Node>, b: seq<Node>, s: seq<Node>, g: seq<Node>) {
    b == InLayer(down, nodes, Bronze) && s == InLayer(down, nodes, Silver) && g == InLayer(down, nodes, Gold)
  }

  /** One more tool goes to the end of the list of its layer, if any. */
  lemma LayersSnoc(down: map<int, seq<int>>, nodes: seq<Node>, n: Node, b: seq<Node>, s: seq<Node>, g: seq<Node>)
    requires Layers(down, nodes, b, s, g)
    ensures var l := SuggestedLayer(down, n);
      Layers(down, nodes + [n],
             b + (if l == Some(Bronze) then [n] else []),
             s + (if l == Some(Silver) then [n] else []),
             g + (if l == Some(Gold) then [n] else []))
  {
    assert (nodes + [n])[..|nodes|] == nodes;
  }

  // ---------------------------------------------------------------------
  // Source and target types
  // ---------------------------------------------------------------------

  const SourceFileKinds: set<String> := {"CSV File", "Excel File", "JSON File", "XML File", "Alteryx Database", "File"}
  const DatabaseKinds: set<String> := {"SQL Server", "Oracle", "PostgreSQL", "MySQL", "Snowflake", "BigQuery", "Redshift", "Database"}
  const TargetFileKinds: set<String> := {"CSV File", "Excel File", "JSON File", "Alteryx Database", "File"}

  /** The file kind of a lower-cased source path, by its extension. */
  function SourceFileType(pathLower: String): (r: String)
    ensures r in SourceFileKinds
  {
    if EndsWith(pathLower, ".csv") then "CSV File"
    else if EndsWith(pathLower, ".xls") || EndsWith(pathLower, ".xlsx") then "Excel File"
    else if EndsWith(pathLower, ".json") then "JSON File"
    else if EndsWith(pathLower, ".xml") then "XML File"
    else if EndsWith(pathLower, ".yxdb") then "Alteryx Database"
    else "File"
  }

  /** The database kind of a lower-cased connection string, by the first
      keyword found in it. */
  function DatabaseType(connLower: String): (r: String)
    ensures r in DatabaseKinds
  {
    if Contains(connLower, "sqlserver") || Contains(connLower, "mssql") then "SQL Server"
    else if Contains(connLower, "oracle") then "Oracle"
    else if Contains(connLower, "postgres") then "PostgreSQL"
    else if Contains(connLower, "mysql") then "MySQL"
    else if Contains(connLower, "snowflake") then "Snowflake"
    else if Contains(connLower, "bigquery") then "BigQuery"
    else if Contains(connLower, "redshift") then "Redshift"
    else "Database"
  }

  /** `_determine_source_type`: a source path decides, whatever the
      connection string says; then the connection string; then the tool
      type, compared with case. */
  function SourceType(n: Node): (r: String)
    ensures r in SourceFileKinds <==> n.sourcePath != []
    ensures n.sourcePath == [] && n.connectionString != [] ==> r in DatabaseKinds
    ensures r == "Unknown" <==>
      n.sourcePath == [] && n.connectionString == []
      && !Contains(n.toolType, "S3") && !Contains(n.toolType, "Azure") && !Contains(n.toolType, "Snowflake")
  {
    if n.sourcePath != [] then SourceFileType(Lower(n.sourcePath))
    else if n.connectionString != [] then DatabaseType(Lower(n.connectionString))
    else if Contains(n.toolType, "S3") then "Amazon S3"
    else if Contains(n.toolType, "Azure") then "Azure Blob"
    else if Contains(n.toolType, "Snowflake") then "Snowflake"
    else "Unknown"
  }

  /** The file kind of a lower-cased target path: the source kinds without
      XML. */
  function TargetFileType(pathLower: String): (r: String)
    ensures r in TargetFileKinds
  {
    if EndsWith(pathLower, ".csv") then "CSV File"
    else if EndsWith(pathLower, ".xls") || EndsWith(pathLower, ".xlsx") then "Excel File"
    else if EndsWith(pathLower, ".json") then "JSON File"
    else if EndsWith(pathLower, ".yxdb") then "Alteryx Database"
    else "File"
  }

  /** `_determine_target_type`: a Browse tool is a preview whatever its
      path; then the target path; then a connection string or a table name. */
  function TargetType(n: Node): (r: String)
    ensures r == "Preview/Browse" <==> n.pluginName == "Browse"
    ensures n.pluginName != "Browse" && n.targetPath != [] ==> r in TargetFileKinds
    ensures r == "Database Table" <==>
      n.pluginName != "Browse" && n.targetPath == [] && (n.connectionString != [] || n.tableName != [])
    ensures r == "Unknown" <==>
      n.pluginName != "Browse" && n.targetPath == [] && n.connectionString == [] && n.tableName == []
  {
    if n.pluginName == "Browse" then "Preview/Browse"
    else if n.targetPath != [] then TargetFileType(Lower(n.targetPath))
    else if n.connectionString != [] || n.tableName != [] then "Database Table"
    else "Unknown"
  }

  /** Lower-casing keeps a suffix, lower-cased. */
  lemma LowerEndsWith(s: String, suf: String)
    requires EndsWith(s, suf)
    ensures EndsWith(Lower(s), Lower(suf))
  {
    var k := |s| - |suf|;
    forall i | 0 <= i < |suf|
      ensures Lower(s)[k + i] == Lower(suf)[i]
    {
      assert s[k + i] == suf[i];
    }
  }

  /** The extension is compared without regard to case: `DATA.CSV` is a
      CSV file. */
  lemma UpperCaseExtension(n: Node)
    requires EndsWith(n.sourcePath, ".CSV")
    ensures SourceType(n) == "CSV File"
  {
    LowerEndsWith(n.sourcePath, ".CSV");
    assert Lower(".CSV") == ".csv" by {
      assert Lower(".CSV")[1] == 'c' && Lower(".CSV")[2] == 's' && Lower(".CSV")[3] == 'v';
    }
  }

  /** An XML source is an XML file, an XML target (not Browse) a plain file. */
  lemma XmlKinds(n: Node)
    requires EndsWith(n.sourcePath, ".xml")
    ensures SourceType(n) == "XML File"
  {
    LowerEndsWith(n.sourcePath, ".xml");
    LowerXml();
    NotTwoSuffixes(Lower(n.sourcePath), ".xml");
  }

  lemma XmlTargetIsFile(n: Node)
    requires n.pluginName != "Browse" && EndsWith(n.targetPath, ".xml")
    ensures TargetType(n) == "File"
  {
    LowerEndsWith(n.targetPath, ".xml");
    LowerXml();
    NotTwoSuffixes(Lower(n.targetPath), ".xml");
  }

  lemma LowerXml()
    ensures Lower(".xml") == ".xml"
  {
    assert Lower(".xml")[1] == 'x' && Lower(".xml")[2] == 'm' && Lower(".xml")[3] == 'l';
  }

  /** A path ending in `.xml` ends in none of the other extensions. */
  lemma NotTwoSuffixes(p: String, xml: String)
    requires xml == ".xml" && EndsWith(p, xml)
    ensures !EndsWith(p, ".csv") && !EndsWith(p, ".xls") && !EndsWith(p, ".xlsx")
    ensures !EndsWith(p, ".json") && !EndsWith(p, ".yxdb")
  {
    var n := |p|;
    assert p[n - 1] == 'l' && p[n - 2] == 'm';
  }

  // ---------------------------------------------------------------------
  // The older expression conversion
  // ---------------------------------------------------------------------

  /** How one character moves the parenthesis depth when quotes are not
      looked at. */
  function ParenStep(c: char): int {
    if c == '(' then 1 else if c == ')' then -1 else 0
  }

  /** The depth after reading s inside one open parenthesis, quotes ignored. */
  function PlainDepth(s: String): int {
    if s == [] then 1 else PlainDepth(s[..|s| - 1]) + ParenStep(s[|s| - 1])
  }

  /** Reading expr after the `(` at `start`, quotes ignored, comes back to
      depth zero just after expr[k]. */
  predicate PlainClosesAt(expr: String, start: nat, k: int) {
    start < k < |expr| && PlainDepth(expr[start + 1..k + 1]) == 0
  }

  /** The `)` `_find_matching_paren` finds for the `(` at start, or -1. */
  function PlainClosingParen(expr: String, start: nat): (j: int)
    ensures j == -1 || (start < j < |expr| && expr[j] == ')')
  {
    if start + 1 > |expr| then -1 else PlainCloseFrom(expr, start, start + 1, 1)
  }

  function PlainCloseFrom(expr: String, start: nat, i: nat, depth: int): (j: int)
    requires start + 1 <= i <= |expr| && depth > 0
    ensures j == -1 || (i <= j < |expr| && expr[j] == ')')
    decreases |expr| - i
  {
    if i == |expr| then -1
    else
      var d := depth + ParenStep(expr[i]);
      if d == 0 then i else PlainCloseFrom(expr, start, i + 1, d)
  }

  /** One more character of the quote-blind scan from `start`. */
  lemma PlainOneMore(expr: String, start: nat, i: nat, before: int)
    requires start + 1 <= i < |expr| && before > 0
    requires before == PlainDepth(expr[start + 1..i])
    requires forall k :: start < k < i - 1 ==> !PlainClosesAt(expr, start, k)
    ensures before + ParenStep(expr[i]) == PlainDepth(expr[start + 1..i + 1])
    ensures forall k :: start < k < i ==> !PlainClosesAt(expr, start, k)
    ensures before + ParenStep(expr[i]) == 0 <==> PlainClosesAt(expr, start, i)
  {
    assert expr[start + 1..i + 1][..i - start - 1] == expr[start + 1..i];
  }

  lemma {:induction false} PlainCloseFromFirst(expr: String, start: nat, i: nat, depth: int)
    requires start + 1 <= i <= |expr| && depth > 0
    requires depth == PlainDepth(expr[start + 1..i])
    requires forall k :: start < k < i ==> !PlainClosesAt(expr, start, k)
    ensures var j := PlainCloseFrom(expr, start, i, depth);
      && (j == -1 <==> forall k :: !PlainClosesAt(expr, start, k))
      && (j != -1 ==> PlainClosesAt(expr, start, j) && forall k :: start < k < j ==> !PlainClosesAt(expr, start, k))
    decreases |expr| - i
  {
    if i < |expr| {
      PlainOneMore(expr, start, i, depth);
      var d := depth + ParenStep(expr[i]);
      if d != 0 {
        PlainCloseFromFirst(expr, start, i + 1, d);
      }
    }
  }

  /** The quote-blind matcher finds the first position where the depth
      returns to zero, and -1 exactly when there is none. */
  lemma PlainClosingParenFirst(expr: String, start: nat)
    ensures var j := PlainClosingParen(expr, start);
      && (j == -1 <==> forall k :: !PlainClosesAt(expr, start, k))
      && (j != -1 ==> PlainClosesAt(expr, start, j) && forall k :: start < k < j ==> !PlainClosesAt(expr, start, k))
  {
    if start + 1 <= |expr| {
      assert expr[start + 1..start + 1] == [];
      PlainCloseFromFirst(expr, start, start + 1, 1);
    }
  }

  /** Without quote characters the quote-aware scan is this depth count. */
  lemma {:induction false} ScanWithoutQuotes(s: String)
    requires forall k :: 0 <= k < |s| ==> !Formula.IsQuote(s[k])
    ensures Formula.ScanText(Formula.Scan(1, None), s) == Formula.Scan(PlainDepth(s), None)
  {
    if s != [] {
      ScanWithoutQuotes(s[..|s| - 1]);
    }
  }

  /** In a text without quote characters both matchers find the same `)`. */
  lemma QuoteFreeMatchersAgree(expr: String, start: nat)
    requires forall k :: 0 <= k < |expr| ==> !Formula.IsQuote(expr[k])
    ensures PlainClosingParen(expr, start) == Formula.ClosingParen(expr, start)
  {
    forall k
      ensures Formula.ClosesAt(expr, start, k) <==> PlainClosesAt(expr, start, k)
    {
      if start < k < |expr| {
        ScanWithoutQuotes(expr[start + 1..k + 1]);
      }
    }
    PlainClosingParenFirst(expr, start);
    Formula.ClosingParenFirst(expr, start);
  }

  /** A quoted `)` closes the parenthesis for the quote-blind matcher, not
      for the quote-aware one. */
  lemma QuotedParenDiffers()
    ensures PlainClosingParen("(')')", 0) == 2
    ensures Formula.ClosingParen("(')')", 0) == 4
  {
  }

  /** `re.search(r'\bname\s*\(', s, re.IGNORECASE)` from position i: the
      start of the leftmost match and the position of its `(`. */
  function SearchCall(s: String, name: String, i: nat): (r: Option<(nat, nat)>)
    requires i <= |s|
    ensures r.Some? ==> i <= r.value.0 < |s| && Formula.CallOpenAt(s, name, r.value.0) == Some(r.value.1)
    ensures forall k :: i <= k < |s| && (r.None? || k < r.value.0) ==> Formula.CallOpenAt(s, name, k).None?
    decreases |s| - i
  {
    if i == |s| then None
    else
      match Formula.CallOpenAt(s, name, i)
      case Some(p) => Some((i, p))
      case None => SearchCall(s, name, i + 1)
  }

  /** The iteration cap of each of the three passes. */
  const MaxIterations: nat := 50

  /** How deep `ConvertAlteryxExpression` lets the IIF pass recurse into
      arguments. */
  const IifDepth: nat := 100

  function CaseWhen(c: String, t: String, f: String): String {
    "CASE WHEN " + c + " THEN " + t + " ELSE " + f + " END"
  }

  /** At most n rounds of a rewrite, stopping at the first text it does not
      apply to: the text and the number of rewrites done. Each of the three
      passes of `_convert_alteryx_expression` is such a loop. */
  function Repeat(rewrite: String -> Option<String>, s: String, n: nat): (r: (String, nat))
    ensures r.1 <= n
    decreases n
  {
    if n == 0 then (s, 0)
    else
      match rewrite(s)
      case None => (s, 0)
      case Some(s') => var r := Repeat(rewrite, s', n - 1); (r.0, r.1 + 1)
  }

  /** A loop is its first rewrite followed by a loop with one round fewer,
      or the text itself when no rewrite applies. */
  lemma RepeatUnfold(rewrite: String -> Option<String>, s: String, n: nat)
    requires n > 0
    ensures rewrite(s).None? ==> Repeat(rewrite, s, n).0 == s
    ensures rewrite(s).Some? ==> Repeat(rewrite, s, n).0 == Repeat(rewrite, rewrite(s).value, n - 1).0
  {
  }

  /** A loop stops before its cap only where no rewrite applies. */
  lemma {:induction false} RepeatStops(rewrite: String -> Option<String>, s: String, n: nat)
    ensures Repeat(rewrite, s, n).1 < n ==> rewrite(Repeat(rewrite, s, n).0).None?
    decreases n
  {
    if n > 0 {
      match rewrite(s)
      case None =>
      case Some(s') => RepeatStops(rewrite, s', n - 1);
    }
  }

  /** A loop whose rewrite applies to everything runs to its cap. */
  lemma {:induction false} RepeatToCap(rewrite: String -> Option<String>, s: String, n: nat)
    requires forall t :: rewrite(t).Some?
    ensures Repeat(rewrite, s, n).1 == n
    decreases n
  {
    if n > 0 {
      RepeatToCap(rewrite, rewrite(s).value, n - 1);
    }
  }

  /** One iteration of `_convert_iif_to_case`: the leftmost `IIF(` with a
      matching `)` and at least three top-level arguments becomes a CASE
      expression over its first three arguments, each converted by
      `convert`. None stops the pass: no match, no matching `)`, or too
      few arguments. */
  function IifRewrite(s: String, convert: String -> String): Option<String> {
    match SearchCall(s, "IIF", 0)
    case None => None
    case Some((start, open)) =>
      var close := PlainClosingParen(s, open);
      if close == -1 then None
      else
        var args := Formula.SplitArgsOf(s[open + 1..close]);
        if |args| < 3 then None
        else Some(s[..start] + CaseWhen(convert(args[0]), convert(args[1]), convert(args[2])) + s[close + 1..])
  }

  /** How the IIF pass at recursion depth `fuel` converts the arguments it
      moves into a CASE expression: unchanged at depth 0, otherwise by an
      IIF pass of its own one level down. */
  function ArgConversion(fuel: nat): String -> String
    decreases fuel, 0
  {
    if fuel == 0 then t => t
    else t => IifPass(t, fuel - 1)
  }

  lemma ArgConversionOf(fuel: nat, inner: nat, t: String)
    ensures fuel == 0 ==> ArgConversion(fuel)(t) == t
    ensures fuel == inner + 1 ==> ArgConversion(fuel)(t) == IifPass(t, inner)
  {
  }

  /** One iteration of the IIF pass at recursion depth `fuel`. */
  function IifStepAt(s: String, fuel: nat): Option<String>
    decreases fuel, 1
  {
    IifRewrite(s, ArgConversion(fuel))
  }

  /** The same as a function value. */
  function IifRewriter(fuel: nat): String -> Option<String>
    decreases fuel, 2
  {
    t => IifStepAt(t, fuel)
  }

  lemma IifRewriterOf(fuel: nat, t: String)
    ensures IifRewriter(fuel)(t) == IifStepAt(t, fuel)
  {
  }

  /** `_convert_iif_to_case` at recursion depth `fuel`: at most
      `MaxIterations` rewrites. */
  function IifPass(s: String, fuel: nat): String
    decreases fuel, 3
  {
    Repeat(IifRewriter(fuel), s, MaxIterations).0
  }

  /** No IIF rewrite where the leftmost `IIF(` has no matching `)`. */
  lemma IifRewriteUnclosed(s: String, convert: String -> String, start: nat, open: nat)
    requires SearchCall(s, "IIF", 0) == Some((start, open))
    requires PlainClosingParen(s, open) == -1
    ensures IifRewrite(s, convert).None?
  {
  }

  /** No IIF rewrite where the leftmost call has fewer than three arguments. */
  lemma IifRewriteFewArgs(s: String, convert: String -> String, start: nat, open: nat, close: int)
    requires SearchCall(s, "IIF", 0) == Some((start, open))
    requires close == PlainClosingParen(s, open) && close != -1
    requires |Formula.SplitArgsOf(s[open + 1..close])| < 3
    ensures IifRewrite(s, convert).None?
  {
  }

  /** The IIF rewrite of the leftmost call with three arguments or more. */
  lemma IifRewriteAt(s: String, convert: String -> String, start: nat, open: nat, close: int, args: seq<String>)
    requires SearchCall(s, "IIF", 0) == Some((start, open))
    requires close == PlainClosingParen(s, open) && close != -1
    requires args == Formula.SplitArgsOf(s[open + 1..close]) && |args| >= 3
    ensures IifRewrite(s, convert) == Some(s[..start] + CaseWhen(convert(args[0]), convert(args[1]), convert(args[2])) + s[close + 1..])
  {
  }

  /** One iteration of `_convert_isnull` (suffix ` IS NULL)`) or
      `_convert_isempty` (suffix ` = '')`): the leftmost call with a
      matching `)` becomes its stripped inner text between `(` and the
      suffix. None stops the pass. */
  function WrapRewrite(s: String, name: String, suffix: String): Option<String> {
    match SearchCall(s, name, 0)
    case None => None
    case Some((start, open)) =>
      var close := PlainClosingParen(s, open);
      if close == -1 then None
      else Some(s[..start] + "(" + Strip(s[open + 1..close]) + suffix + s[close + 1..])
  }

  /** The same rewrite as a function value. */
  function WrapRewriter(name: String, suffix: String): String -> Option<String> {
    t => WrapRewrite(t, name, suffix)
  }

  /** The rewrite at the leftmost match. */
  lemma WrapRewriteAt(s: String, name: String, suffix: String, start: nat, open: nat)
    requires SearchCall(s, name, 0) == Some((start, open))
    ensures var close := PlainClosingParen(s, open);
      && (close == -1 ==> WrapRewrite(s, name, suffix).None?)
      && (close != -1 ==> WrapRewrite(s, name, suffix) == Some(s[..start] + "(" + Strip(s[open + 1..close]) + suffix + s[close + 1..]))
  {
  }

  const IsNullSuffix: String := " IS NULL)"
  const IsEmptySuffix: String := " = '')"

  /** Every `(` of s has a matching `)` for the quote-blind matcher. */
  predicate Balanced(s: String) {
    forall p :: 0 <= p < |s| && s[p] == '(' ==> PlainClosingParen(s, p) != -1
  }

  /** A pass that stops before its cap on a text whose parentheses all
      match leaves no call of the function behind. */
  lemma WrapPassClears(s: String, name: String, suffix: String, n: nat)
    requires var r := Repeat(WrapRewriter(name, suffix), s, n); r.1 < n && Balanced(r.0)
    ensures var r := Repeat(WrapRewriter(name, suffix), s, n).0;
      forall k :: 0 <= k < |r| ==> Formula.CallOpenAt(r, name, k).None?
  {
    var r := Repeat(WrapRewriter(name, suffix), s, n).0;
    RepeatStops(WrapRewriter(name, suffix), s, n);
    assert WrapRewrite(r, name, suffix).None?;
    match SearchCall(r, name, 0)
    case None =>
    case Some((start, open)) =>
      assert r[open] == '(' by {
        Formula.CallOpenAtMatches(r, name, start);
      }
  }

  /** The same for the IIF pass, where a call also stays when it has fewer
      than three arguments. */
  lemma IifPassClears(s: String, n: nat, fuel: nat)
    requires var r := Repeat(IifRewriter(fuel), s, n); r.1 < n && Balanced(r.0)
    ensures var r := Repeat(IifRewriter(fuel), s, n).0;
      SearchCall(r, "IIF", 0).None? ==> forall k :: 0 <= k < |r| ==> Formula.CallOpenAt(r, "IIF", k).None?
    ensures var r := Repeat(IifRewriter(fuel), s, n).0;
      SearchCall(r, "IIF", 0).Some? ==> IifFewArgs(r, SearchCall(r, "IIF", 0).value.1)
  {
    var r := Repeat(IifRewriter(fuel), s, n).0;
    RepeatStops(IifRewriter(fuel), s, n);
    IifRewriterOf(fuel, r);
    assert IifRewrite(r, ArgConversion(fuel)).None?;
    match SearchCall(r, "IIF", 0)
    case None =>
    case Some((start, open)) =>
      assert r[open] == '(' by {
        Formula.CallOpenAtMatches(r, "IIF", start);
      }
      IifStopsFewArgs(r, ArgConversion(fuel), start, open);
  }

  /** The call whose `(` is at open is closed and has fewer than three
      arguments. */
  predicate IifFewArgs(s: String, open: nat) {
    var close := PlainClosingParen(s, open);
    close != -1 && |Formula.SplitArgsOf(s[open + 1..close])| < 3
  }

  /** Where the IIF rewrite finds nothing to do but the leftmost call is
      closed, that call has fewer than three arguments. */
  lemma IifStopsFewArgs(s: String, convert: String -> String, start: nat, open: nat)
    requires SearchCall(s, "IIF", 0) == Some((start, open))
    requires IifRewrite(s, convert).None?
    requires PlainClosingParen(s, open) != -1
    ensures IifFewArgs(s, open)
  {
    var close := PlainClosingParen(s, open);
    var args := Formula.SplitArgsOf(s[open + 1..close]);
    if |args| >= 3 {
      IifRewriteAt(s, convert, start, open, close, args);
    }
  }

  /** The operator rewrites of `_convert_alteryx_expression`, in order; `!`
      alone is kept. */
  function LegacyOperators(s: String): String {
    Replace(Replace(Replace(Replace(s, "==", "="), "!=", "<>"), "&&", " AND "), "||", " OR ")
  }

  /** After the operator rewrites no `&&` or `||` is left. */
  lemma LegacyOperatorsRewritten(s: String)
    ensures !Contains(LegacyOperators(s), "&&") && !Contains(LegacyOperators(s), "||")
  {
    var s1 := Replace(s, "==", "=");
    var s2 := Replace(s1, "!=", "<>");
    var s3 := Replace(s2, "&&", " AND ");
    var s4 := Replace(s3, "||", " OR ");
    ReplaceDropsPair(s2, '&', " AND ");
    ReplaceKeepsNoPair(s3, "||", " OR ", '&');
    ReplaceDropsPair(s3, '|', " OR ");
    NoPairIsNotContained(s4, '&');
    NoPairIsNotContained(s4, '|');
  }

  /** `_convert_alteryx_expression` of a non-empty expression: strip, quote
      `[field]` references, rewrite operators, then the IIF, IsNull and
      IsEmpty passes. */
  function LegacyConverted(expr: String): String {
    var s := LegacyOperators(Formula.QuoteFields(Strip(expr)));
    var s1 := IifPass(s, IifDepth);
    var s2 := Repeat(WrapRewriter("IsNull", IsNullSuffix), s1, MaxIterations).0;
    Repeat(WrapRewriter("IsEmpty", IsEmptySuffix), s2, MaxIterations).0
  }

  /** One element of `get_ordered_transformations`; the description and the
      dbt hint texts are not modelled. */
  datatype TransformationStep = TransformationStep(
    order: int,
    toolId: int,
    toolName: String,
    category: ToolCategory,
    expression: String,
    layer: Option<MedallionLayer>)

  /** One data path from a source tool to a target tool, with one step per
      tool along it. */
  datatype DataLineage = DataLineage(source: Node, target: Node, path: seq<Node>, transformations: seq<TransformationStep>)

  class TransformationAnalyzer {
    const workflow: Workflow
    /** Tool id to the destinations of its outgoing connections. */
    var downstream: map<int, seq<int>>
    /** Tool id to the origins of its incoming connections. */
    var upstream: map<int, seq<int>>

    ghost predicate Valid()
      reads this
    {
      downstream == Adjacency(workflow.connections, false) && upstream == Adjacency(workflow.connections, true)
    }

    /** `__init__` */
    constructor (wf: Workflow)
      ensures workflow == wf && Valid()
    {
      workflow := wf;
      new;
      BuildGraph();
    }

    /** `_build_graph`: one append to each map per connection. */
    method BuildGraph()
      modifies this
      ensures Valid()
    {
      downstream := map[];
      upstream := map[];
      var conns := workflow.connections;
      for i := 0 to |conns|
        invariant downstream == Adjacency(conns[..i], false)
        invariant upstream == Adjacency(conns[..i], true)
      {
        var c := conns[i];
        assert conns[..i + 1][..i] == conns[..i];
        downstream := downstream[c.originId := Lookup(downstream, c.originId) + [c.destinationId]];
        upstream := upstream[c.destinationId := Lookup(upstream, c.destinationId) + [c.originId]];
      }
      assert conns[..|conns|] == conns;
    }

    /** The nested `dfs` of `get_ordered_transformations`: a visited id is
        skipped; otherwise its upstream neighbours are visited first and it
        is listed after them. The ids visited but not yet listed are the
        ones still being visited; they are the same before and after. For an
        acyclic workflow, given the numbering `rank`, the listed order stays
        closed under upstream neighbours. */
    method Visit(id: int, visited: set<int>, order: seq<int>, ghost rank: int -> int)
      returns (visited': set<int>, order': seq<int>)
      requires Valid() && id in Ids(workflow) && OrderInv(visited, order, Ids(workflow))
      requires RankedBy(workflow.connections, rank) ==> Closed(upstream, order)
      requires RankedBy(workflow.connections, rank) && id !in visited ==> StackAbove(visited, order, rank, rank(id))
      ensures Visited(upstream, Ids(workflow), RankedBy(workflow.connections, rank), id, visited, order, visited', order')
      decreases Ids(workflow) - visited
    {
      if id in visited {
        return visited, order;
      }
      visited' := visited + {id};
      order' := order;
      var ups := Lookup(upstream, id);
      ghost var ranked := RankedBy(workflow.connections, rank);
      for j := 0 to |ups|
        invariant Visiting(upstream, Ids(workflow), ranked, id, visited, order, j, visited', order')
      {
        var u := ups[j];
        AdjacencyLists(workflow.connections, true, id);
        NeighbourIsId(workflow, id, u, true);
        if ranked {
          UpstreamRank(workflow.connections, rank, id, u);
          StackAboveNeighbour(visited, order, visited', order', rank, id, u);
        }
        ghost var v1, o1 := visited', order';
        visited', order' := Visit(u, visited', order', rank);
        VisitingStep(upstream, Ids(workflow), ranked, rank, id, visited, order, j, v1, o1, visited', order');
      }
      VisitingDone(upstream, Ids(workflow), ranked, id, visited, order, visited', order');
      order' := order' + [id];
    }

    /** The DFS of `get_ordered_transformations` from every tool in turn:
        each id is listed once, every tool is listed, and in an acyclic
        workflow every connection's origin comes before its destination. */
    method OrderedIds() returns (order: seq<int>)
      requires Valid()
      ensures Seqs.Distinct(order) && forall x :: x in order ==> x in Ids(workflow)
      ensures forall i :: 0 <= i < |workflow.nodes| ==> workflow.nodes[i].toolId in order
      ensures Acyclic(workflow.connections) ==> OriginsFirst(workflow.connections, order)
    {
      ghost var rank: int -> int := x => 0;
      if Acyclic(workflow.connections) {
        rank :| RankedBy(workflow.connections, rank);
      }
      var visited: set<int> := {};
      order := [];
      ghost var ranked := RankedBy(workflow.connections, rank);
      for i := 0 to |workflow.nodes|
        invariant Finished(upstream, Ids(workflow), ranked, visited, order)
        invariant forall k :: 0 <= k < i ==> workflow.nodes[k].toolId in order
      {
        var id := workflow.nodes[i].toolId;
        assert workflow.nodes[i] in workflow.nodes;
        ghost var v1, o1 := visited, order;
        visited, order := Visit(id, visited, order, rank);
        FinishedStep(upstream, Ids(workflow), ranked, id, v1, o1, visited, order);
      }
      if Acyclic(workflow.connections) {
        ClosedOriginsFirst(workflow.connections, order);
      }
    }
  
    /** The nested `dfs` of `_find_all_paths`: `path` is the stack from the
        start to `current` and `visited` holds its ids; each downstream
        neighbour off the stack is pushed, explored and popped. */
    method PathsFrom(current: int, end: int, maxPaths: int, path: seq<int>, visited: set<int>, paths: seq<seq<int>>)
      returns (found: seq<seq<int>>)
      requires Valid() && SimplePath(workflow, path) && path[|path| - 1] == current
      requires forall x :: x in visited <==> x in path
      ensures Explored(workflow, path, end, maxPaths, paths, found)
      decreases Ids(workflow) - visited
    {
      if |paths| >= maxPaths {
        return paths;
      }
      if current == end {
        ExploredAtEnd(workflow, path, end, maxPaths, paths);
        return paths + [path];
      }
      var next := Lookup(downstream, current);
      found := paths;
      ExploringStart(workflow, path, end, maxPaths, paths, next);
      for j := 0 to |next|
        invariant Exploring(workflow, path, end, maxPaths, paths, next, j, found)
      {
        var v := next[j];
        ghost var before := found;
        if v !in visited {
          DownstreamEdges(workflow, current, v);
          AdjacencyLists(workflow.connections, false, current);
          NeighbourIsId(workflow, current, v, false);
          SimplePathSnoc(workflow, path, v);
          found := PathsFrom(v, end, maxPaths, path + [v], visited + {v}, found);
        }
        ExploringStep(workflow, path, end, maxPaths, paths, next, j, before, found);
      }
      forall v | workflow.HasEdge(current, v)
        ensures v in next
      {
        DownstreamEdges(workflow, current, v);
      }
      ExploringDone(workflow, path, end, maxPaths, paths, next, found);
    }

    /** `_find_all_paths`: at most `maxPaths` paths, each a simple path from
        `start` to `end` along connections; when fewer than `maxPaths` come
        back, they are all the simple paths there are; from a tool to itself
        the one path `[start]`. */
    method FindAllPaths(start: int, end: int, maxPaths: int) returns (paths: seq<seq<int>>)
      requires Valid()
      ensures maxPaths <= 0 ==> paths == []
      ensures |paths| <= maxPaths || paths == []
      ensures forall k :: 0 <= k < |paths| ==> PathFromTo(paths[k], start, end)
      ensures |paths| < maxPaths ==> forall q :: PathFromTo(q, start, end) ==> q in paths
      ensures start == end && maxPaths >= 1 ==> paths == [[start]]
    {
      paths := PathsFrom(start, end, maxPaths, [start], {start}, []);
      forall q | PathFromTo(q, start, end)
        ensures Completes(workflow, [start], end, q)
      {
        assert [start] <= q;
      }
    }

    /** ids is a simple path from the tool `start` to the tool `end`. */
    ghost predicate PathFromTo(ids: seq<int>, start: int, end: int)
      reads this
    {
      SimplePath(workflow, ids) && ids[0] == start && ids[|ids| - 1] == end
    }

    /** A lineage `get_data_lineage` can report: between a source and a
        target, the tools along a simple path from one to the other, at
        least one of them, each with its step numbered from 1. */
    ghost predicate LineageOf(l: DataLineage)
      reads this
    {
      && l.source in workflow.sources && l.target in workflow.targets
      && l.path != [] && |l.transformations| == |l.path|
      && (forall k :: 0 <= k < |l.path| ==> l.transformations[k] == CreateStep(l.path[k], k + 1))
      && exists ids :: PathFromTo(ids, l.source.toolId, l.target.toolId) && l.path == PathNodes(workflow, ids)
    }

    /** The steps of a lineage: the tools along the path, numbered from 1. */
    method StepsAlong(pathNodes: seq<Node>) returns (steps: seq<TransformationStep>)
      ensures |steps| == |pathNodes|
      ensures forall k :: 0 <= k < |pathNodes| ==> steps[k] == CreateStep(pathNodes[k], k + 1)
    {
      steps := [];
      for idx := 0 to |pathNodes|
        invariant |steps| == idx
        invariant forall k :: 0 <= k < idx ==> steps[k] == CreateStep(pathNodes[k], k + 1)
      {
        steps := steps + [CreateStep(pathNodes[idx], idx + 1)];
      }
    }

    /** What `_find_all_paths` with its default cap promises of the paths it
        returns from `start` to `end` (see `FindAllPaths`). */
    ghost predicate AllPathsFound(start: int, end: int, paths: seq<seq<int>>)
      reads this
    {
      && |paths| <= MaxPaths
      && (forall k :: 0 <= k < |paths| ==> PathFromTo(paths[k], start, end))
      && (|paths| < MaxPaths ==> forall q :: PathFromTo(q, start, end) ==> q in paths)
    }

    /** The lineage `get_data_lineage` builds from the tools along one path. */
    function LineageThrough(source: Node, target: Node, nodes: seq<Node>): DataLineage
      reads this
    {
      DataLineage(source, target, nodes, StepsFor(nodes))
    }

    /** The tools of a lineage as its steps, numbered from 1. */
    function StepsFor(nodes: seq<Node>): (r: seq<TransformationStep>)
      reads this
      ensures |r| == |nodes| && forall k :: 0 <= k < |nodes| ==> r[k] == CreateStep(nodes[k], k + 1)
    {
      if nodes == [] then []
      else
        var n := |nodes| - 1;
        var init := StepsFor(nodes[..n]);
        assert forall k :: 0 <= k < n ==> nodes[..n][k] == nodes[k];
        init + [CreateStep(nodes[n], n + 1)]
    }

    /** The lineages `get_data_lineage` builds from the paths found between
        one source and one target: one per path that passes through some
        tool, in the order of the paths. */
    function LineagesAlong(source: Node, target: Node, paths: seq<seq<int>>): seq<DataLineage>
      reads this
    {
      if paths == [] then []
      else
        var earlier := LineagesAlong(source, target, paths[..|paths| - 1]);
        var nodes := PathNodes(workflow, paths[|paths| - 1]);
        if nodes == [] then earlier else earlier + [LineageThrough(source, target, nodes)]
    }

    /** Each path through some tool has its lineage, and there are no more
        lineages than paths. */
    lemma {:induction false} LineagesAlongComplete(source: Node, target: Node, paths: seq<seq<int>>)
      ensures |LineagesAlong(source, target, paths)| <= |paths|
      ensures forall q :: q in paths && PathNodes(workflow, q) != [] ==>
        LineageThrough(source, target, PathNodes(workflow, q)) in LineagesAlong(source, target, paths)
    {
      if paths != [] {
        var init := paths[..|paths| - 1];
        LineagesAlongComplete(source, target, init);
        forall q | q in paths && PathNodes(workflow, q) != []
          ensures LineageThrough(source, target, PathNodes(workflow, q)) in LineagesAlong(source, target, paths)
        {
          AlongKeepsEarlier(source, target, paths);
          if q != paths[|paths| - 1] {
            assert q in init by {
              var k :| 0 <= k < |paths| && paths[k] == q;
              assert init[k] == q;
            }
          }
        }
      }
    }

    /** The lineages of all paths but the last come first, then the lineage
        of the last, if it passes through some tool. */
    lemma AlongKeepsEarlier(source: Node, target: Node, paths: seq<seq<int>>)
      requires paths != []
      ensures var nodes := PathNodes(workflow, paths[|paths| - 1]);
        && LineagesAlong(source, target, paths[..|paths| - 1]) <= LineagesAlong(source, target, paths)
        && (nodes != [] ==> LineageThrough(source, target, nodes) in LineagesAlong(source, target, paths))
    {
    }

    /** Every lineage of ls is one `get_data_lineage` can report. */
    ghost predicate Reportable(ls: seq<DataLineage>)
      reads this
    {
      forall k :: 0 <= k < |ls| ==> LineageOf(ls[k])
    }

    /** Reportable lineages one after the other are reportable. */
    lemma ReportableConcat(a: seq<DataLineage>, b: seq<DataLineage>)
      requires Reportable(a) && Reportable(b)
      ensures Reportable(a + b)
    {
      forall k | 0 <= k < |a + b|
        ensures LineageOf((a + b)[k])
      {
        if k < |a| {
          assert (a + b)[k] == a[k];
        } else {
          assert (a + b)[k] == b[k - |a|];
        }
      }
    }

    /** The innermost loop of `get_data_lineage`, for one source and one
        target: the paths `_find_all_paths` finds, and one lineage per path
        that passes through some tool, in the order of the paths. */
    method LineagesBetween(source: Node, target: Node) returns (paths: seq<seq<int>>, lineages: seq<DataLineage>)
      requires Valid() && source in workflow.sources && target in workflow.targets
      ensures AllPathsFound(source.toolId, target.toolId, paths)
      ensures lineages == LineagesAlong(source, target, paths)
      ensures Reportable(lineages) && |lineages| <= MaxPaths
    {
      paths := FindAllPaths(source.toolId, target.toolId, MaxPaths);
      lineages := LineagesFrom(source, target, paths);
    }

    /** The loop of `get_data_lineage` over the paths found between a source
        and a target. */
    method LineagesFrom(source: Node, target: Node, paths: seq<seq<int>>) returns (lineages: seq<DataLineage>)
      requires source in workflow.sources && target in workflow.targets
      requires forall k :: 0 <= k < |paths| ==> PathFromTo(paths[k], source.toolId, target.toolId)
      ensures lineages == LineagesAlong(source, target, paths)
      ensures Reportable(lineages) && |lineages| <= |paths|
    {
      lineages := [];
      for p := 0 to |paths|
        invariant lineages == LineagesAlong(source, target, paths[..p])
        invariant Reportable(lineages) && |lineages| <= p
      {
        var pathNodes := PathNodes(workflow, paths[p]);
        AlongStep(source, target, paths, p);
        if pathNodes != [] {
          var steps := StepsAlong(pathNodes);
          StepsAreFor(pathNodes, steps);
          ThroughIsLineage(source, target, paths[p]);
          ReportableConcat(lineages, [LineageThrough(source, target, pathNodes)]);
          lineages := lineages + [DataLineage(source, target, pathNodes, steps)];
        }
      }
      assert paths[..|paths|] == paths;
    }

    /** One more path adds its lineage, if it passes through some tool. */
    lemma AlongStep(source: Node, target: Node, paths: seq<seq<int>>, p: nat)
      requires p < |paths|
      ensures var nodes := PathNodes(workflow, paths[p]);
        LineagesAlong(source, target, paths[..p + 1])
        == LineagesAlong(source, target, paths[..p]) + (if nodes == [] then [] else [LineageThrough(source, target, nodes)])
    {
      assert paths[..p + 1][..p] == paths[..p];
    }

    /** Steps numbered from 1 along the tools are the steps of their lineage. */
    lemma StepsAreFor(nodes: seq<Node>, steps: seq<TransformationStep>)
      requires |steps| == |nodes| && forall k :: 0 <= k < |steps| ==> steps[k] == CreateStep(nodes[k], k + 1)
      ensures steps == StepsFor(nodes)
    {
    }

    /** The lineage through the tools of a path found between a source and a
        target is one `get_data_lineage` can report. */
    lemma ThroughIsLineage(source: Node, target: Node, ids: seq<int>)
      requires source in workflow.sources && target in workflow.targets
      requires PathFromTo(ids, source.toolId, target.toolId)
      requires PathNodes(workflow, ids) != []
      ensures LineageOf(LineageThrough(source, target, PathNodes(workflow, ids)))
    {
      var l := LineageThrough(source, target, PathNodes(workflow, ids));
      assert PathFromTo(ids, l.source.toolId, l.target.toolId) && l.path == PathNodes(workflow, ids);
    }

    /** The pairs of a source and a target, in the order of the two nested
        loops of `get_data_lineage`. */
    function Pairs(sources: seq<Node>, targets: seq<Node>): (r: seq<(Node, Node)>)
      ensures |r| == |sources| * |targets|
    {
      if sources == [] then []
      else Pairs(sources[..|sources| - 1], targets) + Row(sources[|sources| - 1], targets)
    }

    /** One source paired with each target in turn. */
    function Row(source: Node, targets: seq<Node>): (r: seq<(Node, Node)>)
      ensures |r| == |targets| && forall j :: 0 <= j < |targets| ==> r[j] == (source, targets[j])
    {
      seq(|targets|, j requires 0 <= j < |targets| => (source, targets[j]))
    }

    /** The lineages of each pair in turn, from the paths found for it. */
    function LineagesOfPairs(pairs: seq<(Node, Node)>, found: seq<seq<seq<int>>>): seq<DataLineage>
      requires |found| == |pairs|
      reads this
    {
      if pairs == [] then []
      else
        var n := |pairs| - 1;
        LineagesOfPairs(pairs[..n], found[..n]) + LineagesAlong(pairs[n].0, pairs[n].1, found[n])
    }

    /** `get_data_lineage`: every pair of a source and a target, every path
        between them (at most `MaxPaths` per pair), and one lineage per path
        that passes through some tool, in loop order. `found` holds the
        paths found for each pair. */
    method GetDataLineage() returns (lineages: seq<DataLineage>, ghost found: seq<seq<seq<int>>>)
      requires Valid()
      ensures |found| == |workflow.sources| * |workflow.targets|
      ensures var pairs := Pairs(workflow.sources, workflow.targets);
        && (forall k :: 0 <= k < |pairs| ==> AllPathsFound(pairs[k].0.toolId, pairs[k].1.toolId, found[k]))
        && lineages == LineagesOfPairs(pairs, found)
      ensures forall k :: 0 <= k < |lineages| ==> LineageOf(lineages[k])
      ensures |lineages| <= MaxPaths * (|workflow.sources| * |workflow.targets|)
    {
      lineages, found := [], [];
      ghost var pairs: seq<(Node, Node)> := [];
      var sources, targets := workflow.sources, workflow.targets;
      for i := 0 to |sources|
        invariant pairs == Pairs(sources[..i], targets) && FoundFor(pairs, found)
        invariant lineages == LineagesOfPairs(pairs, found)
        invariant Reportable(lineages) && |lineages| <= MaxPaths * |pairs|
      {
        lineages, found := LineagesForSource(sources[i], pairs, found, lineages);
        PairsSnoc(sources, targets, i);
        pairs := pairs + Row(sources[i], targets);
      }
      assert sources[..|sources|] == sources;
    }

    /** The loop of `get_data_lineage` over the targets, for one source,
        after the lineages of the pairs `before`: the paths found for each
        target are added to `found`, and their lineages to the lineages. */
    method LineagesForSource(source: Node, ghost before: seq<(Node, Node)>, ghost found0: seq<seq<seq<int>>>,
                             lineages0: seq<DataLineage>)
      returns (lineages: seq<DataLineage>, ghost found: seq<seq<seq<int>>>)
      requires Valid() && source in workflow.sources && FoundFor(before, found0)
      requires lineages0 == LineagesOfPairs(before, found0)
      requires Reportable(lineages0) && |lineages0| <= MaxPaths * |before|
      ensures var pairs := before + Row(source, workflow.targets);
        && FoundFor(pairs, found)
        && lineages == LineagesOfPairs(pairs, found)
        && Reportable(lineages) && |lineages| <= MaxPaths * |pairs|
    {
      lineages, found := lineages0, found0;
      ghost var pairs := before;
      var targets := workflow.targets;
      for j := 0 to |targets|
        invariant pairs == before + Row(source, targets[..j]) && FoundFor(pairs, found)
        invariant lineages == LineagesOfPairs(pairs, found)
        invariant Reportable(lineages) && |lineages| <= MaxPaths * |pairs|
      {
        var paths, between := LineagesBetween(source, targets[j]);
        PairsStep(before, source, targets, j);
        OneMorePair(pairs, found, (source, targets[j]), paths);
        FoundForSnoc(pairs, found, (source, targets[j]), paths);
        ReportableConcat(lineages, between);
        lineages := lineages + between;
        pairs := pairs + [(source, targets[j])];
        found := found + [paths];
      }
      assert targets[..|targets|] == targets;
    }

    /** `found` holds, for each pair, the paths `_find_all_paths` finds
        between its source and its target. */
    ghost predicate FoundFor(pairs: seq<(Node, Node)>, found: seq<seq<seq<int>>>)
      reads this
    {
      |found| == |pairs| && forall k :: 0 <= k < |pairs| ==> AllPathsFound(pairs[k].0.toolId, pairs[k].1.toolId, found[k])
    }

    /** The paths of one more pair. */
    lemma FoundForSnoc(pairs: seq<(Node, Node)>, found: seq<seq<seq<int>>>, pair: (Node, Node), paths: seq<seq<int>>)
      requires FoundFor(pairs, found) && AllPathsFound(pair.0.toolId, pair.1.toolId, paths)
      ensures FoundFor(pairs + [pair], found + [paths])
    {
      var ps, fs := pairs + [pair], found + [paths];
      forall k | 0 <= k < |ps|
        ensures AllPathsFound(ps[k].0.toolId, ps[k].1.toolId, fs[k])
      {
        if k < |pairs| {
          assert ps[k] == pairs[k] && fs[k] == found[k];
        }
      }
    }

    /** One more source adds its row of pairs. */
    lemma PairsSnoc(sources: seq<Node>, targets: seq<Node>, i: nat)
      requires i < |sources|
      ensures Pairs(sources[..i + 1], targets) == Pairs(sources[..i], targets) + Row(sources[i], targets)
    {
      assert sources[..i + 1][..i] == sources[..i];
    }

    /** One more target in the row of a source. */
    lemma PairsStep(before: seq<(Node, Node)>, source: Node, targets: seq<Node>, j: nat)
      requires j < |targets|
      ensures before + Row(source, targets[..j + 1]) == (before + Row(source, targets[..j])) + [(source, targets[j])]
    {
      assert Row(source, targets[..j + 1]) == Row(source, targets[..j]) + [(source, targets[j])];
      Seqs.ConcatAssoc(before, Row(source, targets[..j]), [(source, targets[j])]);
    }

    /** One more pair adds the lineages of its paths at the end. */
    lemma OneMorePair(pairs: seq<(Node, Node)>, found: seq<seq<seq<int>>>, pair: (Node, Node), paths: seq<seq<int>>)
      requires |found| == |pairs|
      ensures LineagesOfPairs(pairs + [pair], found + [paths]) == LineagesOfPairs(pairs, found) + LineagesAlong(pair.0, pair.1, paths)
    {
      assert (pairs + [pair])[..|pairs|] == pairs;
      assert (found + [paths])[..|found|] == found;
    }

    /** `suggest_medallion_mapping`: the tools of each layer, in tool order. */
    method SuggestMedallionMapping() returns (bronze: seq<Node>, silver: seq<Node>, gold: seq<Node>)
      ensures Layers(downstream, workflow.nodes, bronze, silver, gold)
    {
      bronze, silver, gold := [], [], [];
      var nodes := workflow.nodes;
      for i := 0 to |nodes|
        invariant Layers(downstream, nodes[..i], bronze, silver, gold)
      {
        var node := nodes[i];
        assert nodes[..i + 1] == nodes[..i] + [node];
        LayersSnoc(downstream, nodes[..i], node, bronze, silver, gold);
        if node.category == Container {
          continue;
        }
        var isFinal := Lookup(downstream, node.toolId) == [];
        var layer := ToolMappings.MedallionLayerFor(node.category, isFinal);
        if layer.None? {
          continue;
        }
        if node.category == Transform && node.pluginName == "Summarize" && isFinal {
          layer := Some(Gold);
        }
        assert layer == SuggestedLayer(downstream, node);
        match layer.value {
          case Bronze => bronze := bronze + [node];
          case Silver => silver := silver + [node];
          case Gold => gold := gold + [node];
        }
      }
      assert nodes[..|nodes|] == nodes;
    }

    /** A tool that no connection leaves is gold whatever its category, an
        Input tool included, unless it is a container; one with an outgoing
        connection has its category's layer. Apart from containers, this is
        the layer of the tool's transformation step. */
    lemma SuggestedLayerRule(n: Node, order: int)
      requires Valid()
      ensures n.category != Container && (forall i :: 0 <= i < |workflow.connections| ==> workflow.connections[i].originId != n.toolId)
              ==> SuggestedLayer(downstream, n) == Some(Gold)
      ensures (exists i :: 0 <= i < |workflow.connections| && workflow.connections[i].originId == n.toolId)
              ==> SuggestedLayer(downstream, n) == ToolMappings.CategoryLayer(n.category)
      ensures n.category != Container ==> SuggestedLayer(downstream, n) == CreateStep(n, order).layer
    {
      StepLayer(n, order);
      ToolMappings.MedallionLayerTable(n.category);
    }

    /** `_find_matching_paren`: the depth count ignores quotes. */
    static method FindMatchingParen(expr: String, start: nat) returns (j: int)
      ensures j == PlainClosingParen(expr, start)
    {
      var depth := 1;
      var i := start + 1;
      while i < |expr| && depth > 0
        invariant start + 1 <= i
        invariant i > |expr| ==> i == start + 1 && depth == 1
        invariant i <= |expr| ==> depth == PlainDepth(expr[start + 1..i])
        invariant forall k :: start < k < i - 1 ==> !PlainClosesAt(expr, start, k)
        invariant i - 1 > start ==> (depth == 0 <==> PlainClosesAt(expr, start, i - 1))
        invariant i - 1 == start ==> depth == 1
        decreases |expr| - i
      {
        ghost var before := depth;
        if expr[i] == '(' {
          depth := depth + 1;
        } else if expr[i] == ')' {
          depth := depth - 1;
        }
        PlainOneMore(expr, start, i, before);
        i := i + 1;
      }
      PlainClosingParenFirst(expr, start);
      if depth == 0 {
        j := i - 1;
      } else {
        j := -1;
      }
    }

    /** `_convert_iif_to_case`, letting the conversion of arguments recurse
        `depth` levels deep. */
    static method ConvertIifToCase(expr: String, depth: nat) returns (result: String)
      ensures result == IifPass(expr, depth)
      decreases depth, 3
    {
      result := expr;
      var iteration := 0;
      ghost var remaining := MaxIterations;
      while iteration < MaxIterations
        invariant iteration <= MaxIterations && remaining == MaxIterations - iteration
        invariant Repeat(IifRewriter(depth), result, remaining).0 == Repeat(IifRewriter(depth), expr, MaxIterations).0
      {
        RepeatUnfold(IifRewriter(depth), result, remaining);
        IifRewriterOf(depth, result);
        var next := IifStep(result, depth);
        if next.None? {
          break;
        }
        result := next.value;
        iteration, remaining := iteration + 1, remaining - 1;
      }
    }

    /** One iteration of the loop of `_convert_iif_to_case`, converting the
        arguments by passes of their own while depth lasts; None where the
        loop breaks. */
    static method IifStep(s: String, depth: nat) returns (next: Option<String>)
      ensures next == IifStepAt(s, depth)
      decreases depth, 2
    {
      var m := SearchCall(s, "IIF", 0);
      if m.None? {
        return None;
      }
      var (startIdx, parenStart) := m.value;
      var parenEnd := FindMatchingParen(s, parenStart);
      if parenEnd == -1 {
        IifRewriteUnclosed(s, ArgConversion(depth), startIdx, parenStart);
        return None;
      }
      var args := Formula.FormulaConverter.SplitArgs(s[parenStart + 1..parenEnd]);
      if |args| < 3 {
        IifRewriteFewArgs(s, ArgConversion(depth), startIdx, parenStart, parenEnd);
        return None;
      }
      IifRewriteAt(s, ArgConversion(depth), startIdx, parenStart, parenEnd, args);
      var case_ := ConvertedCase(args, depth);
      next := Some(s[..startIdx] + case_ + s[parenEnd + 1..]);
    }

    /** The CASE expression for the first three arguments of an IIF call,
        each converted by a pass of its own while depth lasts. */
    static method ConvertedCase(args: seq<String>, depth: nat) returns (case_: String)
      requires |args| >= 3
      ensures case_ == CaseWhen(ArgConversion(depth)(args[0]), ArgConversion(depth)(args[1]), ArgConversion(depth)(args[2]))
      decreases depth, 0
    {
      var condition, trueVal, falseVal := args[0], args[1], args[2];
      var inner: nat := if depth > 0 then depth - 1 else 0;
      if depth > 0 {
        condition := ConvertIifToCase(condition, inner);
        trueVal := ConvertIifToCase(trueVal, inner);
        falseVal := ConvertIifToCase(falseVal, inner);
      }
      ArgConversionOf(depth, inner, args[0]);
      ArgConversionOf(depth, inner, args[1]);
      ArgConversionOf(depth, inner, args[2]);
      case_ := CaseWhen(condition, trueVal, falseVal);
    }

    /** One iteration of the loop of `_convert_isnull` and
        `_convert_isempty`; None where the loop breaks. */
    static method WrapStep(s: String, name: String, suffix: String) returns (next: Option<String>)
      ensures next == WrapRewrite(s, name, suffix)
    {
      var m := SearchCall(s, name, 0);
      if m.None? {
        return None;
      }
      var (startIdx, parenStart) := m.value;
      WrapRewriteAt(s, name, suffix, startIdx, parenStart);
      var parenEnd := FindMatchingParen(s, parenStart);
      if parenEnd == -1 {
        return None;
      }
      var field := Strip(s[parenStart + 1..parenEnd]);
      next := Some(s[..startIdx] + "(" + field + suffix + s[parenEnd + 1..]);
    }

    /** The loop shared by `_convert_isnull` and `_convert_isempty`. */
    static method ConvertWrapped(expr: String, name: String, suffix: String) returns (result: String)
      ensures result == Repeat(WrapRewriter(name, suffix), expr, MaxIterations).0
    {
      result := expr;
      var iteration := 0;
      ghost var remaining := MaxIterations;
      while iteration < MaxIterations
        invariant iteration <= MaxIterations && remaining == MaxIterations - iteration
        invariant Repeat(WrapRewriter(name, suffix), result, remaining).0 == Repeat(WrapRewriter(name, suffix), expr, MaxIterations).0
      {
        var next := WrapStep(result, name, suffix);
        RepeatUnfold(WrapRewriter(name, suffix), result, remaining);
        if next.None? {
          break;
        }
        result := next.value;
        iteration, remaining := iteration + 1, remaining - 1;
      }
    }

    /** `_convert_isnull` */
    static method ConvertIsNull(expr: String) returns (result: String)
      ensures result == Repeat(WrapRewriter("IsNull", IsNullSuffix), expr, MaxIterations).0
    {
      result := ConvertWrapped(expr, "IsNull", IsNullSuffix);
    }

    /** `_convert_isempty` */
    static method ConvertIsEmpty(expr: String) returns (result: String)
      ensures result == Repeat(WrapRewriter("IsEmpty", IsEmptySuffix), expr, MaxIterations).0
    {
      result := ConvertWrapped(expr, "IsEmpty", IsEmptySuffix);
    }

    /** `_convert_alteryx_expression`: an empty expression is returned as it
        is. */
    static method ConvertAlteryxExpression(expr: String) returns (sql: String)
      ensures expr == [] ==> sql == []
      ensures expr != [] ==> sql == LegacyConverted(expr)
    {
      if expr == [] {
        return expr;
      }
      sql := Strip(expr);
      sql := Formula.QuoteFields(sql);
      sql := Replace(sql, "==", "=");
      sql := Replace(sql, "!=", "<>");
      sql := Replace(sql, "&&", " AND ");
      sql := Replace(sql, "||", " OR ");
      sql := ConvertIifToCase(sql, IifDepth);
      sql := ConvertIsNull(sql);
      sql := ConvertIsEmpty(sql);
    }

    /** `_create_transformation_step`: a tool no connection leaves is a final
        output for its medallion layer. */
    function CreateStep(node: Node, order: int): (r: TransformationStep)
      reads this
    {
      TransformationStep(order, node.toolId, node.DisplayName(), node.category, node.expression,
        ToolMappings.MedallionLayerFor(node.category, Lookup(downstream, node.toolId) == []))
    }

    /** A step's layer is gold for a tool no connection leaves, whatever its
        category, and its category's layer otherwise. */
    lemma StepLayer(node: Node, order: int)
      requires Valid()
      ensures (forall i :: 0 <= i < |workflow.connections| ==> workflow.connections[i].originId != node.toolId) ==>
        CreateStep(node, order).layer == Some(Gold)
      ensures (exists i :: 0 <= i < |workflow.connections| && workflow.connections[i].originId == node.toolId) ==>
        CreateStep(node, order).layer == ToolMappings.CategoryLayer(node.category)
    {
      AdjacencyLists(workflow.connections, false, node.toolId);
      NeighboursEmpty(workflow.connections, node.toolId, false);
      ToolMappings.MedallionLayerTable(node.category);
    }

    /** The steps of `get_ordered_transformations` for the ids of `order`:
        a step numbered by its id's position, and none for an id that is not
        a tool. */
    function StepsOf(order: seq<int>): (r: seq<TransformationStep>)
      reads this
      ensures |r| <= |order|
    {
      if order == [] then []
      else
        var rest := StepsOf(order[..|order| - 1]);
        match workflow.NodeById(order[|order| - 1])
        case Some(node) => rest + [CreateStep(node, |order|)]
        case None => rest
    }

    /** One more id in the order adds the step of its tool, if it is one. */
    lemma StepsOfSnoc(order: seq<int>, id: int)
      ensures StepsOf(order + [id]) == StepsOf(order) +
        (if workflow.NodeById(id).Some? then [CreateStep(workflow.NodeById(id).value, |order| + 1)] else [])
    {
      assert (order + [id])[..|order|] == order;
    }

    /** Each step is the step of the tool at position `order - 1`. */
    ghost predicate StepsAt(order: seq<int>, r: seq<TransformationStep>)
      reads this
    {
      forall k :: 0 <= k < |r| ==>
        1 <= r[k].order <= |order| && order[r[k].order - 1] == r[k].toolId
        && workflow.NodeById(r[k].toolId).Some?
        && r[k] == CreateStep(workflow.NodeById(r[k].toolId).value, r[k].order)
    }

    lemma {:induction false} StepsOfAt(order: seq<int>)
      ensures StepsAt(order, StepsOf(order))
    {
      if order != [] {
        var init, id := order[..|order| - 1], order[|order| - 1];
        assert order == init + [id];
        StepsOfAt(init);
        StepsOfSnoc(init, id);
        var rest := StepsOf(init);
        var r := StepsOf(order);
        forall k | 0 <= k < |r|
          ensures 1 <= r[k].order <= |order| && order[r[k].order - 1] == r[k].toolId
        {
          if k < |rest| {
            assert r[k] == rest[k];
            assert order[r[k].order - 1] == init[r[k].order - 1];
          }
        }
      }
    }

    /** The step numbers grow along the list. */
    lemma {:induction false} StepsOfIncreasing(order: seq<int>)
      ensures var r := StepsOf(order); forall k, l :: 0 <= k < l < |r| ==> r[k].order < r[l].order
    {
      if order != [] {
        var init, id := order[..|order| - 1], order[|order| - 1];
        assert order == init + [id];
        StepsOfIncreasing(init);
        StepsOfAt(init);
        StepsOfSnoc(init, id);
      }
    }

    /** Every position holding a tool has its step. */
    lemma {:induction false} StepsOfCover(order: seq<int>, p: nat)
      requires p < |order| && workflow.NodeById(order[p]).Some?
      ensures exists k :: 0 <= k < |StepsOf(order)| && StepsOf(order)[k].order == p + 1
    {
      var init, id := order[..|order| - 1], order[|order| - 1];
      assert order == init + [id];
      StepsOfSnoc(init, id);
      var r := StepsOf(order);
      if p < |init| {
        StepsOfCover(init, p);
        var k :| 0 <= k < |StepsOf(init)| && StepsOf(init)[k].order == p + 1;
        assert r[k] == StepsOf(init)[k];
      } else {
        assert r[|r| - 1].order == p + 1;
      }
    }

    /** Steps at distinct positions of an order without repeats are steps of
        distinct tools. */
    lemma StepsOfDistinct(order: seq<int>)
      requires Seqs.Distinct(order)
      ensures StepsInOrder(StepsOf(order))
    {
      var r := StepsOf(order);
      StepsOfAt(order);
      StepsOfIncreasing(order);
      forall k, l | 0 <= k < l < |r|
        ensures r[k].toolId != r[l].toolId
      {
        var pk, pl := r[k].order - 1, r[l].order - 1;
        assert 0 <= pk < pl < |order|;
        assert order[pk] == r[k].toolId && order[pl] == r[l].toolId;
      }
    }

    /** A tool whose id is in the order has a step. */
    lemma StepsOfTool(order: seq<int>, id: int)
      requires id in order && workflow.NodeById(id).Some?
      ensures StepFor(StepsOf(order), id)
    {
      var r := StepsOf(order);
      StepsOfAt(order);
      var p :| 0 <= p < |order| && order[p] == id;
      StepsOfCover(order, p);
      var k :| 0 <= k < |r| && r[k].order == p + 1;
      assert r[k].toolId == id;
    }

    /** What the order of the DFS gives the steps: one step per tool, with
        distinct ids and growing numbers, and in an acyclic workflow the step
        of a connection's origin before the step of its destination. */
    lemma StepsOfOrder(order: seq<int>)
      requires Seqs.Distinct(order)
      requires forall i :: 0 <= i < |workflow.nodes| ==> workflow.nodes[i].toolId in order
      requires Acyclic(workflow.connections) ==> OriginsFirst(workflow.connections, order)
      ensures StepsInOrder(StepsOf(order))
      ensures forall i :: 0 <= i < |workflow.nodes| ==> StepFor(StepsOf(order), workflow.nodes[i].toolId)
      ensures Acyclic(workflow.connections) ==> OriginStepsFirst(StepsOf(order))
    {
      var r := StepsOf(order);
      StepsOfDistinct(order);
      forall i | 0 <= i < |workflow.nodes|
        ensures StepFor(r, workflow.nodes[i].toolId)
      {
        assert workflow.NodeById(workflow.nodes[i].toolId).Some?;
        StepsOfTool(order, workflow.nodes[i].toolId);
      }
      if Acyclic(workflow.connections) {
        StepsOfAt(order);
        StepsOfIncreasing(order);
        forall i, k, l | 0 <= i < |workflow.connections| && 0 <= k < |r| && 0 <= l < |r|
            && r[k].toolId == workflow.connections[i].originId && r[l].toolId == workflow.connections[i].destinationId
          ensures k < l
        {
          StepBefore(order, r, i, k, l);
        }
      }
    }

    lemma StepBefore(order: seq<int>, r: seq<TransformationStep>, i: nat, k: nat, l: nat)
      requires Seqs.Distinct(order) && OriginsFirst(workflow.connections, order)
      requires StepsAt(order, r) && forall k, l :: 0 <= k < l < |r| ==> r[k].order < r[l].order
      requires i < |workflow.connections| && k < |r| && l < |r|
      requires r[k].toolId == workflow.connections[i].originId && r[l].toolId == workflow.connections[i].destinationId
      ensures k < l
    {
      var pl := r[l].order - 1;
      assert workflow.connections[i].originId in order[..pl];
      var q :| 0 <= q < pl && order[q] == workflow.connections[i].originId;
      assert order[r[k].order - 1] == order[q];
    }

    /** The steps are those of tools, numbered upwards, and no tool has two. */
    ghost predicate StepsInOrder(steps: seq<TransformationStep>)
      reads this
    {
      && (forall k :: 0 <= k < |steps| ==>
            1 <= steps[k].order && workflow.NodeById(steps[k].toolId).Some?
            && steps[k] == CreateStep(workflow.NodeById(steps[k].toolId).value, steps[k].order))
      && (forall k, l :: 0 <= k < l < |steps| ==> steps[k].order < steps[l].order && steps[k].toolId != steps[l].toolId)
    }

    /** Some step is the step of tool id. */
    ghost predicate StepFor(steps: seq<TransformationStep>, id: int) {
      exists k :: 0 <= k < |steps| && steps[k].toolId == id
    }

    /** No step of a connection's destination comes before a step of its origin. */
    ghost predicate OriginStepsFirst(steps: seq<TransformationStep>)
      reads this
    {
      forall i, k, l :: 0 <= i < |workflow.connections| && 0 <= k < |steps| && 0 <= l < |steps|
        && steps[k].toolId == workflow.connections[i].originId && steps[l].toolId == workflow.connections[i].destinationId
        ==> k < l
    }

    /** `get_ordered_transformations`: the DFS order, then one step per id
        that is a tool, numbered by its position in the order. */
    method GetOrderedTransformations() returns (steps: seq<TransformationStep>)
      requires Valid()
      ensures StepsInOrder(steps)
      ensures forall i :: 0 <= i < |workflow.nodes| ==> StepFor(steps, workflow.nodes[i].toolId)
      ensures Acyclic(workflow.connections) ==> OriginStepsFirst(steps)
    {
      var order := OrderedIds();
      steps := [];
      for idx := 0 to |order|
        invariant steps == StepsOf(order[..idx])
      {
        assert order[..idx + 1][..idx] == order[..idx];
        var node := workflow.NodeById(order[idx]);
        if node.Some? {
          steps := steps + [CreateStep(node.value, idx + 1)];
        }
      }
      assert order[..|order|] == order;
      StepsOfOrder(order);
    }
  }
}
