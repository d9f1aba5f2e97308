/**
 * The global interconnect fabric (TIG): node bookkeeping, two-way connection
 * wiring, initialisation flags, ignition-mode weight rewriting, the metrics
 * computed around the graph library, and broadcast preconditions.
 *
 * The topology generator, the graph library's analyses, the random link
 * characteristics, the health manager and the node internals are inputs.
 */
module TigFabric {
  import opened Wrappers
  import opened Strings
  import opened OrderedMaps

  // ---------------------------------------------------------------------------
  // Values

  datatype NodeState = Initializing | Active | EsgtMode | Other(name: string)
  {
    /** The enum's `.value` string. */
    function Value(): string {
      match this
      case Initializing => "initializing"
      case Active => "active"
      case EsgtMode => "esgt_mode"
      case Other(n) => n
    }
  }

  /** One direction of a link: latency in microseconds, bandwidth in bits per second. */
  datatype Connection = Connection(remote: string, latency: real, bandwidth: int, weight: real, active: bool)

  /**
   * A node of the fabric. `stimulus` is the intensity of the last external
   * stimulus given by `activate_node` (which also sets the attention level to it).
   */
  datatype Node = Node(id: string, state: NodeState, connections: Dict<string, Connection>, stimulus: Option<real>)

  /** An undirected edge of the generated topology, with the link characteristics drawn for it. */
  datatype Edge = Edge(a: nat, b: nat, latency: real, bandwidth: int)

  /** The generated topology: integer node labels and edges between them. */
  datatype Graph = Graph(nodes: seq<nat>, edges: seq<Edge>)

  const EmptyGraph := Graph([], [])

  predicate SameLink(e: Edge, f: Edge) {
    (e.a == f.a && e.b == f.b) || (e.a == f.b && e.b == f.a)
  }

  /** No edge is listed twice, in either direction. */
  predicate DistinctLinks(edges: seq<Edge>) {
    forall k, l :: 0 <= k < l < |edges| ==> !SameLink(edges[k], edges[l])
  }

  /** What the graph library guarantees of a simple graph. */
  predicate WellFormed(g: Graph) {
    && (forall i, j :: 0 <= i < j < |g.nodes| ==> g.nodes[i] != g.nodes[j])
    && (forall k :: 0 <= k < |g.edges| ==> g.edges[k].a in g.nodes && g.edges[k].b in g.nodes)
    && DistinctLinks(g.edges)
  }

  /** Results of the graph library's analyses of the generated topology. */
  datatype Analysis = Analysis(
    density: real,
    clustering: real,
    avgPathLength: real,
    globalEfficiency: real,
    articulationPoints: seq<nat>,
    simplePaths: (nat, nat) -> nat)

  datatype Metrics = Metrics(
    nodeCount: nat,
    edgeCount: nat,
    density: real,
    clustering: real,
    avgPathLength: real,
    algebraicConnectivity: real,
    eci: real,
    hasBottlenecks: bool,
    bottleneckLocations: seq<string>,
    minPathRedundancy: nat,
    avgLatency: real,
    maxLatency: real,
    totalBandwidthGbps: real)

  /** `FabricMetrics()` as freshly constructed. */
  const InitialMetrics := Metrics(0, 0, 0.0, 0.0, 0.0, 0.0, 0.0, false, [], 0, 0.0, 0.0, 0.0)

  datatype InitStatus = InitStatus(ready: bool, initializing: bool, nodeCount: nat, targetNodeCount: nat, status: string)

  /** A broadcast to a node's neighbours requested by `activate_node`. */
  datatype Spread = Spread(source: string, intensity: real, priority: int)

  /** An `activate_node` argument: an integer label or a node id. */
  datatype NodeRef = Label(n: int) | Id(s: string)

  // ---------------------------------------------------------------------------
  // Node names

  const NodePrefix := "tig-node-"

  /** `f"tig-node-{n:03d}"`. */
  function NodeName(n: nat): (r: string)
    ensures StartsWith(r, NodePrefix)
  {
    var r := NodePrefix + ZeroPad(n, 3);
    assert r[..|NodePrefix|] == NodePrefix;
    r
  }

  /** `f"tig-node-{n:03d}"` for any integer: a minus sign counts towards the width. */
  function NodeNameOf(n: int): (r: string)
    ensures n >= 0 ==> r == NodeName(n)
  {
    NodePrefix + PadInt(n, 3)
  }

  lemma NodeNameInjective(a: nat, b: nat)
    ensures NodeName(a) == NodeName(b) ==> a == b
  {
    if NodeName(a) == NodeName(b) {
      assert ZeroPad(a, 3) == NodeName(a)[|NodePrefix|..];
      assert ZeroPad(b, 3) == NodeName(b)[|NodePrefix|..];
      ZeroPadInjective(a, b, 3);
    }
  }

  /** `int(node_id.split("-")[-1])`, or None where `int` raises. */
  function NodeNumber(id: string): Option<nat> {
    var pieces := SplitOn(id, "-");
    var last := pieces[|pieces| - 1];
    if last != [] && AllDigits(last) then Some(ParseDigits(last)) else None
  }

  lemma NoDashInDigits(z: string)
    requires AllDigits(z)
    ensures IndexOf(z, "-", 0).None?
  {
    forall j: nat ensures !OccursAt(z, "-", j) {
      if j + 1 <= |z| {
        assert z[j..j + 1][0] == z[j];
      }
    }
  }

  /** The first dash of `s` is at `i`. */
  lemma FirstDash(s: string, i: nat)
    requires i < |s| && s[i] == '-' && forall j :: 0 <= j < i ==> s[j] != '-'
    ensures IndexOf(s, "-", 0) == Some(i)
  {
    assert s[i..i + 1] == "-";
    assert OccursAt(s, "-", i);
    forall j: nat | j < i ensures !OccursAt(s, "-", j) {
      assert s[j..j + 1][0] == s[j];
    }
    var r := IndexOf(s, "-", 0);
    assert r.Some?;
    assert r.value <= i;
  }

  /** The number read back from a node id is the label it was made from. */
  lemma NodeNumberOfName(n: nat)
    ensures NodeNumber(NodeName(n)) == Some(n)
  {
    var z := ZeroPad(n, 3);
    var s := NodeName(n);
    var s1 := "node-" + z;
    assert s == "tig-" + s1;
    FirstDash(s, 3);
    assert s[..3] == "tig" && s[4..] == s1;
    FirstDash(s1, 4);
    assert s1[..4] == "node" && s1[5..] == z;
    NoDashInDigits(z);
    assert SplitOn(z, "-") == [z];
    assert SplitOn(s1, "-") == ["node"] + [z];
    assert SplitOn(s, "-") == ["tig"] + (["node"] + [z]);
    ParseZeroPad(n, 3);
  }

  // ---------------------------------------------------------------------------
  // Nodes and connections

  /** A node as `_instantiate_nodes` creates it. */
  function FreshNode(n: nat): Node {
    Node(NodeName(n), Initializing, [], None)
  }

  /** `self.nodes[id] = TIGNode(...)` for the labels `labels`, in order. */
  function Instantiate(d: Dict<string, Node>, labels: seq<nat>): Dict<string, Node>
  {
    if labels == [] then d
    else var n := labels[|labels| - 1]; Put(Instantiate(d, labels[..|labels| - 1]), NodeName(n), FreshNode(n))
  }

  lemma InstantiateSnoc(d: Dict<string, Node>, labels: seq<nat>, i: nat)
    requires i < |labels|
    ensures Instantiate(d, labels[..i + 1]) == Put(Instantiate(d, labels[..i]), NodeName(labels[i]), FreshNode(labels[i]))
  {
    assert labels[..i + 1][..i] == labels[..i];
  }

  ghost predicate ShapedNodes(d: Dict<string, Node>) {
    && DistinctKeys(d)
    && (forall i :: 0 <= i < |d| ==> d[i].1.id == d[i].0)
    && (forall i :: 0 <= i < |d| ==> DistinctKeys(d[i].1.connections))
    && (forall i :: 0 <= i < |d| ==> exists n: nat :: d[i].0 == NodeName(n))
  }

  lemma PutShaped(d: Dict<string, Node>, n: nat, node: Node)
    requires ShapedNodes(d) && node.id == NodeName(n) && DistinctKeys(node.connections)
    ensures ShapedNodes(Put(d, NodeName(n), node))
  {
    PutGet(d, NodeName(n), node, NodeName(n));
    var r := Put(d, NodeName(n), node);
    forall i | 0 <= i < |r|
      ensures r[i].1.id == r[i].0 && DistinctKeys(r[i].1.connections) && exists m: nat :: r[i].0 == NodeName(m)
    {
      if HasKey(d, NodeName(n)) {
        var j := IndexOfKey(d, NodeName(n)).value;
        assert r == d[j := (NodeName(n), node)];
      } else {
        assert r == d + [(NodeName(n), node)];
      }
    }
  }

  /** After instantiation every label has a fresh node under its name. */
  lemma {:induction false} InstantiateFacts(d: Dict<string, Node>, labels: seq<nat>)
    requires ShapedNodes(d)
    ensures ShapedNodes(Instantiate(d, labels))
    ensures forall k :: 0 <= k < |labels| ==> Get(Instantiate(d, labels), NodeName(labels[k])) == Some(FreshNode(labels[k]))
    ensures forall id :: HasKey(d, id) ==> HasKey(Instantiate(d, labels), id)
  {
    if labels != [] {
      var init := labels[..|labels| - 1];
      var n := labels[|labels| - 1];
      var prev := Instantiate(d, init);
      InstantiateFacts(d, init);
      PutShaped(prev, n, FreshNode(n));
      forall k | 0 <= k < |labels|
        ensures Get(Instantiate(d, labels), NodeName(labels[k])) == Some(FreshNode(labels[k]))
      {
        PutGet(prev, NodeName(n), FreshNode(n), NodeName(labels[k]));
        if k < |labels| - 1 {
          assert labels[k] == init[k];
          NodeNameInjective(labels[k], n);
        }
      }
      forall id | HasKey(d, id) ensures HasKey(Instantiate(d, labels), id) {
        PutGet(prev, NodeName(n), FreshNode(n), id);
      }
    }
  }

  /** Writes `conn` under `remote` in the connection map of node `id`. */
  function Wire(d: Dict<string, Node>, id: string, remote: string, conn: Connection): Dict<string, Node>
  {
    match Get(d, id)
    case None => d
    case Some(node) => Put(d, id, node.(connections := Put(node.connections, remote, conn)))
  }

  /** The connection `self.nodes[a].connections[b]` after a link is written. */
  function LinkOf(e: Edge, remote: nat): Connection {
    Connection(NodeName(remote), e.latency, e.bandwidth, 1.0, true)
  }

  /** One iteration of `_establish_connections`: both directions of edge `e`. */
  function Link(d: Dict<string, Node>, e: Edge): Dict<string, Node> {
    var d1 := Wire(d, NodeName(e.a), NodeName(e.b), LinkOf(e, e.b));
    Wire(d1, NodeName(e.b), NodeName(e.a), LinkOf(e, e.a))
  }

  function Establish(d: Dict<string, Node>, edges: seq<Edge>): Dict<string, Node>
  {
    if edges == [] then d else Link(Establish(d, edges[..|edges| - 1]), edges[|edges| - 1])
  }

  lemma EstablishSnoc(d: Dict<string, Node>, edges: seq<Edge>, i: nat)
    requires i < |edges|
    ensures Establish(d, edges[..i + 1]) == Link(Establish(d, edges[..i]), edges[i])
  {
    assert edges[..i + 1][..i] == edges[..i];
  }

  /** The connection from node `x` to node `y`, if any. */
  function ConnAt(d: Dict<string, Node>, x: string, y: string): Option<Connection> {
    match Get(d, x)
    case None => None
    case Some(node) => Get(node.connections, y)
  }

  lemma WireFacts(d: Dict<string, Node>, id: string, remote: string, conn: Connection, x: string, y: string)
    requires ShapedNodes(d) && HasKey(d, id)
    ensures ShapedNodes(Wire(d, id, remote, conn))
    ensures Keys(Wire(d, id, remote, conn)) == Keys(d)
    ensures ConnAt(Wire(d, id, remote, conn), x, y) == if x == id && y == remote then Some(conn) else ConnAt(d, x, y)
  {
    var node := Get(d, id).value;
    var i :| 0 <= i < |d| && d[i] == (id, node);
    var m: nat :| id == NodeName(m);
    var node' := node.(connections := Put(node.connections, remote, conn));
    PutGet(node.connections, remote, conn, y);
    PutShaped(d, m, node');
    PutGet(d, id, node', x);
  }

  /** Linking keeps the node ids, and sets exactly the two directions of the edge. */
  lemma LinkFacts(d: Dict<string, Node>, e: Edge, x: string, y: string)
    requires ShapedNodes(d) && HasKey(d, NodeName(e.a)) && HasKey(d, NodeName(e.b))
    ensures ShapedNodes(Link(d, e)) && Keys(Link(d, e)) == Keys(d)
    ensures ConnAt(Link(d, e), x, y) ==
      if x == NodeName(e.b) && y == NodeName(e.a) then Some(LinkOf(e, e.a))
      else if x == NodeName(e.a) && y == NodeName(e.b) then Some(LinkOf(e, e.b))
      else ConnAt(d, x, y)
  {
    var d1 := Wire(d, NodeName(e.a), NodeName(e.b), LinkOf(e, e.b));
    WireFacts(d, NodeName(e.a), NodeName(e.b), LinkOf(e, e.b), x, y);
    assert HasKey(d1, NodeName(e.b)) by {
      var i :| 0 <= i < |d| && d[i].0 == NodeName(e.b);
      assert Keys(d1)[i] == Keys(d)[i];
    }
    WireFacts(d1, NodeName(e.b), NodeName(e.a), LinkOf(e, e.a), x, y);
  }

  ghost predicate Linked(d: Dict<string, Node>, e: Edge) {
    && ConnAt(d, NodeName(e.a), NodeName(e.b)) == Some(LinkOf(e, e.b))
    && ConnAt(d, NodeName(e.b), NodeName(e.a)) == Some(LinkOf(e, e.a))
  }

  ghost predicate Endpoints(d: Dict<string, Node>, edges: seq<Edge>) {
    forall k :: 0 <= k < |edges| ==> HasKey(d, NodeName(edges[k].a)) && HasKey(d, NodeName(edges[k].b))
  }

  lemma KeysHasKey(d: Dict<string, Node>, d': Dict<string, Node>, id: string)
    requires Keys(d) == Keys(d') && HasKey(d, id)
    ensures HasKey(d', id)
  {
    var i :| 0 <= i < |d| && d[i].0 == id;
    assert Keys(d')[i] == Keys(d)[i];
  }

  /**
   * Wiring a list of distinct edges connects both endpoints of every edge to
   * each other, with the same latency and bandwidth in both directions.
   */
  lemma {:induction false} EstablishFacts(d: Dict<string, Node>, edges: seq<Edge>)
    requires ShapedNodes(d) && Endpoints(d, edges) && DistinctLinks(edges)
    ensures ShapedNodes(Establish(d, edges)) && Keys(Establish(d, edges)) == Keys(d)
    ensures forall k :: 0 <= k < |edges| ==> Linked(Establish(d, edges), edges[k])
  {
    EstablishShaped(d, edges);
    if edges != [] {
      var init := edges[..|edges| - 1];
      var e := edges[|edges| - 1];
      InitFacts(d, edges);
      EstablishShaped(d, init);
      EstablishFacts(d, init);
      var prev := Establish(d, init);
      KeysHasKey(d, prev, NodeName(e.a));
      KeysHasKey(d, prev, NodeName(e.b));
      LinkedInit(prev, edges, init);
      LinkAll(prev, edges);
    }
  }

  /** Wiring edges whose endpoints are nodes keeps the nodes shaped and keeps their ids. */
  lemma {:induction false} EstablishShaped(d: Dict<string, Node>, edges: seq<Edge>)
    requires ShapedNodes(d) && Endpoints(d, edges)
    ensures ShapedNodes(Establish(d, edges)) && Keys(Establish(d, edges)) == Keys(d)
  {
    if edges != [] {
      var init := edges[..|edges| - 1];
      var e := edges[|edges| - 1];
      InitFacts(d, edges);
      EstablishShaped(d, init);
      var prev := Establish(d, init);
      KeysHasKey(d, prev, NodeName(e.a));
      KeysHasKey(d, prev, NodeName(e.b));
      LinkFacts(prev, e, "", "");
    }
  }

  /** What holds of a list of edges holds of all but its last. */
  lemma InitFacts(d: Dict<string, Node>, edges: seq<Edge>)
    requires edges != [] && Endpoints(d, edges)
    ensures Endpoints(d, edges[..|edges| - 1])
    ensures HasKey(d, NodeName(edges[|edges| - 1].a)) && HasKey(d, NodeName(edges[|edges| - 1].b))
    ensures DistinctLinks(edges) ==> DistinctLinks(edges[..|edges| - 1])
  {
  }

  /** The edges linked before the last one, as positions of the whole list. */
  lemma LinkedInit(d: Dict<string, Node>, edges: seq<Edge>, init: seq<Edge>)
    requires edges != [] && init == edges[..|edges| - 1] && DistinctLinks(edges)
    requires forall k :: 0 <= k < |init| ==> Linked(d, init[k])
    ensures forall k :: 0 <= k < |edges| - 1 ==> Linked(d, edges[k]) && !SameLink(edges[k], edges[|edges| - 1])
  {
    forall k | 0 <= k < |edges| - 1 ensures Linked(d, edges[k]) {
      assert init[k] == edges[k];
    }
  }

  /** Linking the last edge keeps the earlier, different edges linked. */
  lemma LinkAll(d: Dict<string, Node>, edges: seq<Edge>)
    requires edges != [] && ShapedNodes(d)
    requires HasKey(d, NodeName(edges[|edges| - 1].a)) && HasKey(d, NodeName(edges[|edges| - 1].b))
    requires forall k :: 0 <= k < |edges| - 1 ==> Linked(d, edges[k]) && !SameLink(edges[k], edges[|edges| - 1])
    ensures forall k :: 0 <= k < |edges| ==> Linked(Link(d, edges[|edges| - 1]), edges[k])
  {
    forall k | 0 <= k < |edges| ensures Linked(Link(d, edges[|edges| - 1]), edges[k]) {
      LinkKeeps(d, edges[|edges| - 1], edges[k]);
    }
  }

  /** Linking `e` links it, and keeps linked every edge that is not the same link. */
  lemma LinkKeeps(d: Dict<string, Node>, e: Edge, f: Edge)
    requires ShapedNodes(d) && HasKey(d, NodeName(e.a)) && HasKey(d, NodeName(e.b))
    requires f == e || (Linked(d, f) && !SameLink(f, e))
    ensures Linked(Link(d, e), f)
  {
    LinkFacts(d, e, NodeName(f.a), NodeName(f.b));
    LinkFacts(d, e, NodeName(f.b), NodeName(f.a));
    if f != e {
      NodeNameInjective(f.a, e.a);
      NodeNameInjective(f.a, e.b);
      NodeNameInjective(f.b, e.a);
      NodeNameInjective(f.b, e.b);
    }
  }

  // ---------------------------------------------------------------------------
  // Ignition-mode weights

  /** `min(w * 1.5, 2.0)`. */
  function Boost(w: real): real { if w * 1.5 < 2.0 then w * 1.5 else 2.0 }

  /** `max(w / 1.5, 1.0)`. */
  function Relax(w: real): real { if w / 1.5 > 1.0 then w / 1.5 else 1.0 }

  lemma WeightBounds(w: real)
    requires 1.0 <= w <= 2.0
    ensures 1.0 <= Boost(w) <= 2.0 && 1.0 <= Relax(w) <= 2.0
  {
  }

  /** A weight in [1, 2] comes back after one enter/exit pair exactly when it is at most 4/3. */
  lemma BoostRelax(w: real)
    requires 1.0 <= w <= 2.0
    ensures Relax(Boost(w)) == w <==> w <= 4.0 / 3.0
  {
  }

  function BoostConn(c: Connection): Connection { c.(weight := Boost(c.weight)) }
  function RelaxConn(c: Connection): Connection { c.(weight := Relax(c.weight)) }

  function EnterNode(n: Node): Node {
    n.(state := EsgtMode, connections := seq(|n.connections|, k requires 0 <= k < |n.connections| =>
      (n.connections[k].0, BoostConn(n.connections[k].1))))
  }

  function ExitNode(n: Node): Node {
    n.(state := Active, connections := seq(|n.connections|, k requires 0 <= k < |n.connections| =>
      (n.connections[k].0, RelaxConn(n.connections[k].1))))
  }

  function EnterAll(d: Dict<string, Node>): (r: Dict<string, Node>)
    ensures |r| == |d| && Keys(r) == Keys(d)
  {
    seq(|d|, i requires 0 <= i < |d| => (d[i].0, EnterNode(d[i].1)))
  }

  function ExitAll(d: Dict<string, Node>): (r: Dict<string, Node>)
    ensures |r| == |d| && Keys(r) == Keys(d)
  {
    seq(|d|, i requires 0 <= i < |d| => (d[i].0, ExitNode(d[i].1)))
  }

  predicate WeightsIn(d: Dict<string, Node>, lo: real, hi: real) {
    forall i, k :: 0 <= i < |d| && 0 <= k < |d[i].1.connections| ==>
      lo <= d[i].1.connections[k].1.weight <= hi
  }

  /** Entering and leaving ignition mode keep every weight inside [1, 2]. */
  lemma ModesKeepWeights(d: Dict<string, Node>)
    requires WeightsIn(d, 1.0, 2.0)
    ensures WeightsIn(EnterAll(d), 1.0, 2.0) && WeightsIn(ExitAll(d), 1.0, 2.0)
  {
    forall i, k | 0 <= i < |d| && 0 <= k < |d[i].1.connections|
      ensures 1.0 <= Boost(d[i].1.connections[k].1.weight) <= 2.0
      ensures 1.0 <= Relax(d[i].1.connections[k].1.weight) <= 2.0
    {
      WeightBounds(d[i].1.connections[k].1.weight);
    }
  }

  lemma EnterExitNode(n: Node)
    requires forall k :: 0 <= k < |n.connections| ==> 1.0 <= n.connections[k].1.weight <= 4.0 / 3.0
    ensures ExitNode(EnterNode(n)) == n.(state := Active)
  {
    var a := n.connections;
    var b := ExitNode(EnterNode(n)).connections;
    assert |b| == |a|;
    forall k | 0 <= k < |a| ensures b[k] == a[k] {
      BoostRelax(a[k].1.weight);
    }
  }

  /**
   * With every weight at most 4/3 (in particular, all at the initial 1.0), an
   * enter/exit pair gives every weight back and leaves every node ACTIVE.
   */
  lemma EnterExitRestores(d: Dict<string, Node>)
    requires WeightsIn(d, 1.0, 4.0 / 3.0)
    ensures Keys(ExitAll(EnterAll(d))) == Keys(d)
    ensures forall i :: 0 <= i < |d| ==> ExitAll(EnterAll(d))[i].1 == d[i].1.(state := Active)
  {
    var e := EnterAll(d);
    forall i | 0 <= i < |d| ensures ExitAll(e)[i].1 == d[i].1.(state := Active) {
      assert ExitAll(e)[i].1 == ExitNode(e[i].1);
      assert e[i].1 == EnterNode(d[i].1);
      EnterExitNode(d[i].1);
    }
  }

  // ---------------------------------------------------------------------------
  // Metrics

  /** A node's degree as the graph library counts it (a self-loop counts twice). */
  function Degree(edges: seq<Edge>, v: nat): nat {
    if edges == [] then 0
    else var e := edges[|edges| - 1];
      Degree(edges[..|edges| - 1], v) + (if e.a == v then 1 else 0) + (if e.b == v then 1 else 0)
  }

  function MinDegree(g: Graph, labels: seq<nat>): (m: nat)
    requires labels != []
    ensures forall k :: 0 <= k < |labels| ==> m <= Degree(g.edges, labels[k])
    ensures exists k :: 0 <= k < |labels| && m == Degree(g.edges, labels[k])
  {
    if |labels| == 1 then Degree(g.edges, labels[0])
    else
      var rest := MinDegree(g, labels[1..]);
      var here := Degree(g.edges, labels[0]);
      if here <= rest then here
      else
        assert forall k :: 1 <= k < |labels| ==> labels[k] == labels[1..][k - 1];
        rest
  }

  /** The connectivity shortcut: minimum degree over node count, 0.0 for an empty graph. */
  function AlgebraicConnectivity(g: Graph): (c: real)
    ensures |g.nodes| == 0 ==> c == 0.0
  {
    if |g.nodes| > 0 then Ratio(MinDegree(g, g.nodes), |g.nodes|) else 0.0
  }

  /** `a / b` on naturals as a real, for a positive `b`. */
  function Ratio(a: nat, b: nat): (q: real)
    requires b > 0
    ensures q >= 0.0 && (q == 0.0 <==> a == 0)
    ensures q * (b as real) == a as real
  {
    (a as real) / (b as real)
  }

  /** The connectivity shortcut is zero exactly when some node has no link. */
  lemma ConnectivityZeroIff(g: Graph)
    requires |g.nodes| > 0
    ensures AlgebraicConnectivity(g) >= 0.0
    ensures AlgebraicConnectivity(g) == 0.0 <==> exists k :: 0 <= k < |g.nodes| && Degree(g.edges, g.nodes[k]) == 0
  {
    var m := MinDegree(g, g.nodes);
    assert AlgebraicConnectivity(g) == Ratio(m, |g.nodes|);
  }

  /** `_compute_eci`: zero below two nodes, otherwise the global efficiency capped at 1. */
  function Eci(nodeCount: nat, efficiency: real): (e: real)
    ensures nodeCount < 2 ==> e == 0.0
    ensures e <= 1.0
    ensures nodeCount >= 2 ==> e <= efficiency && (efficiency <= 1.0 ==> e == efficiency)
  {
    if nodeCount < 2 then 0.0 else if efficiency < 1.0 then efficiency else 1.0
  }

  function MapNames(labels: seq<nat>): (r: seq<string>)
    ensures |r| == |labels| && forall k :: 0 <= k < |labels| ==> r[k] == NodeName(labels[k])
  {
    if labels == [] then [] else [NodeName(labels[0])] + MapNames(labels[1..])
  }

  /** Every connection of every node, nodes in order, each node's connections in order. */
  function AllConnections(d: Dict<string, Node>): seq<Connection>
  {
    if d == [] then [] else Values(d[0].1.connections) + AllConnections(d[1..])
  }

  function SumLatency(cs: seq<Connection>): real {
    if cs == [] then 0.0 else cs[0].latency + SumLatency(cs[1..])
  }

  function MaxLatency(cs: seq<Connection>): (m: real)
    requires cs != []
    ensures forall k :: 0 <= k < |cs| ==> cs[k].latency <= m
    ensures exists k :: 0 <= k < |cs| && cs[k].latency == m
  {
    if |cs| == 1 then cs[0].latency
    else
      var rest := MaxLatency(cs[1..]);
      assert forall k :: 1 <= k < |cs| ==> cs[k] == cs[1..][k - 1];
      if cs[0].latency >= rest then cs[0].latency else rest
  }

  function SumBandwidth(cs: seq<Connection>): real {
    if cs == [] then 0.0 else (cs[0].bandwidth as real) / 1000000000.0 + SumBandwidth(cs[1..])
  }

  lemma {:induction false} SumAtMostMax(cs: seq<Connection>, m: real)
    requires forall k :: 0 <= k < |cs| ==> cs[k].latency <= m
    ensures SumLatency(cs) <= (|cs| as real) * m
  {
    if cs != [] {
      assert forall k :: 0 <= k < |cs| - 1 ==> cs[1..][k] == cs[k + 1];
      SumAtMostMax(cs[1..], m);
    }
  }

  /** The mean latency never exceeds the maximum one. */
  lemma MeanAtMostMax(cs: seq<Connection>)
    requires cs != []
    ensures SumLatency(cs) / (|cs| as real) <= MaxLatency(cs)
  {
    MeanBound(cs, MaxLatency(cs));
  }

  lemma MeanBound(cs: seq<Connection>, m: real)
    requires cs != [] && forall k :: 0 <= k < |cs| ==> cs[k].latency <= m
    ensures SumLatency(cs) / (|cs| as real) <= m
  {
    SumAtMostMax(cs, m);
    DivAtMost(SumLatency(cs), |cs|, m);
  }

  lemma DivAtMost(s: real, n: nat, m: real)
    requires n > 0 && s <= (n as real) * m
    ensures s / (n as real) <= m
  {
    var q := s / (n as real);
    assert q * (n as real) == s;
    assert (q - m) * (n as real) <= 0.0;
  }

  /** The index pairs `_detect_bottlenecks` samples: the first ten ids, each with its next ten at most. */
  predicate Sampled(n: nat, i: nat, j: nat) {
    i < 10 && i < j < n && j < i + 11
  }

  /** `_compute_metrics` but for the path-redundancy sample, which is computed by a loop. */
  function MetricsOf(old_: Metrics, g: Graph, cs: seq<Connection>, an: Analysis, redundancy: nat): (m: Metrics)
  {
    Metrics(
      |g.nodes|, |g.edges|, an.density, an.clustering, an.avgPathLength,
      AlgebraicConnectivity(g),
      Eci(|g.nodes|, an.globalEfficiency),
      |an.articulationPoints| > 0,
      MapNames(an.articulationPoints),
      if |g.nodes| > 1 then redundancy else old_.minPathRedundancy,
      if cs != [] then SumLatency(cs) / (|cs| as real) else 0.0,
      if cs != [] then MaxLatency(cs) else 0.0,
      SumBandwidth(cs))
  }

  /** The bottleneck flag is set exactly when there are articulation points, and they are named. */
  lemma BottleneckFlag(old_: Metrics, g: Graph, cs: seq<Connection>, an: Analysis, redundancy: nat)
    ensures MetricsOf(old_, g, cs, an, redundancy).hasBottlenecks <==> an.articulationPoints != []
    ensures forall k :: 0 <= k < |an.articulationPoints| ==>
      MetricsOf(old_, g, cs, an, redundancy).bottleneckLocations[k] == NodeName(an.articulationPoints[k])
    ensures MetricsOf(old_, g, cs, an, redundancy).eci <= 1.0
    ensures MetricsOf(old_, g, cs, an, redundancy).avgLatency <= MetricsOf(old_, g, cs, an, redundancy).maxLatency
  {
    if cs != [] {
      MeanAtMostMax(cs);
    }
  }

  // ---------------------------------------------------------------------------
  // The fabric

  class Fabric {
    var nodes: Dict<string, Node>
    var graph: Graph
    var metrics: Option<Metrics>
    var initialized: bool
    var initializing: bool
    /** `config.node_count`. */
    const targetNodeCount: nat

    ghost predicate Valid()
      reads this
    {
      ShapedNodes(nodes)
    }

    constructor (targetNodeCount: nat)
      ensures Valid()
      ensures nodes == [] && graph == EmptyGraph && metrics == Some(InitialMetrics)
      ensures !initialized && !initializing && this.targetNodeCount == targetNodeCount
    {
      nodes := [];
      graph := EmptyGraph;
      metrics := Some(InitialMetrics);
      initialized := false;
      initializing := false;
      this.targetNodeCount := targetNodeCount;
    }

    /** `is_ready()`. */
    function IsReady(): bool
      reads this
    {
      initialized
    }

    /** `is_initializing()`. */
    function IsInitializing(): bool
      reads this
    {
      initializing
    }

    /** `get_init_status()`. */
    function GetInitStatus(): (s: InitStatus)
      reads this
      ensures s.status == "ready" <==> initialized
      ensures s.status == "initializing" <==> !initialized && initializing
      ensures s.status == "not_started" <==> !initialized && !initializing
      ensures s.ready == initialized && s.initializing == initializing
      ensures s.nodeCount == |nodes| && s.targetNodeCount == targetNodeCount
    {
      var status := if initialized then "ready" else if initializing then "initializing" else "not_started";
      InitStatus(initialized, initializing, |nodes|, targetNodeCount, status)
    }

    /** `get_node(id)`. */
    function GetNode(id: string): (r: Option<Node>)
      reads this
      requires Valid()
      ensures r.Some? <==> HasKey(nodes, id)
      ensures r.Some? ==> r.value.id == id
    {
      Get(nodes, id)
    }

    /** `_instantiate_nodes`: a fresh INITIALIZING node per graph label, named `tig-node-NNN`. */
    method InstantiateNodes()
      requires Valid()
      modifies this
      ensures Valid()
      ensures nodes == Instantiate(old(nodes), graph.nodes)
      ensures forall k :: 0 <= k < |graph.nodes| ==> Get(nodes, NodeName(graph.nodes[k])) == Some(FreshNode(graph.nodes[k]))
      ensures unchanged(this`graph, this`metrics, this`initialized, this`initializing)
    {
      ghost var before := nodes;
      InstantiateAll();
      InstantiateFacts(before, graph.nodes);
    }

    /** The loop of `_instantiate_nodes`. */
    method InstantiateAll()
      requires Valid()
      modifies this
      ensures Valid()
      ensures nodes == Instantiate(old(nodes), graph.nodes)
      ensures unchanged(this`graph, this`metrics, this`initialized, this`initializing)
    {
      var labels := graph.nodes;
      var i := 0;
      while i < |labels|
        invariant 0 <= i <= |labels|
        invariant nodes == Instantiate(old(nodes), labels[..i])
        invariant Valid()
        invariant unchanged(this`graph, this`metrics, this`initialized, this`initializing)
      {
        InstantiateSnoc(old(nodes), labels, i);
        AddFreshNode(labels[i]);
        i := i + 1;
      }
      assert labels[..i] == labels;
    }

    /** One step of `_instantiate_nodes`: `self.nodes[node.id] = node` for a fresh node. */
    method AddFreshNode(n: nat)
      requires Valid()
      modifies this
      ensures Valid() && nodes == Put(old(nodes), NodeName(n), FreshNode(n))
      ensures unchanged(this`graph, this`metrics, this`initialized, this`initializing)
    {
      PutShaped(nodes, n, FreshNode(n));
      nodes := Put(nodes, NodeName(n), FreshNode(n));
    }

    /** `_establish_connections`: both directions of every edge, with the edge's latency and bandwidth. */
    method EstablishConnections()
      requires Valid() && Endpoints(nodes, graph.edges)
      requires DistinctLinks(graph.edges)
      modifies this
      ensures Valid()
      ensures nodes == Establish(old(nodes), graph.edges) && Keys(nodes) == Keys(old(nodes))
      ensures forall k :: 0 <= k < |graph.edges| ==> Linked(nodes, graph.edges[k])
      ensures unchanged(this`graph, this`metrics, this`initialized, this`initializing)
    {
      ghost var before := nodes;
      EstablishAll();
      EstablishFacts(before, graph.edges);
    }

    /** The loop of `_establish_connections`. */
    method EstablishAll()
      modifies this
      ensures nodes == Establish(old(nodes), graph.edges)
      ensures unchanged(this`graph, this`metrics, this`initialized, this`initializing)
    {
      var edges := graph.edges;
      var i := 0;
      while i < |edges|
        invariant 0 <= i <= |edges|
        invariant nodes == Establish(old(nodes), edges[..i])
        invariant unchanged(this`graph, this`metrics, this`initialized, this`initializing)
      {
        EstablishSnoc(old(nodes), edges, i);
        LinkEdge(edges[i]);
        i := i + 1;
      }
      assert edges[..i] == edges;
    }

    /** One iteration of `_establish_connections`: both directions of edge `e`. */
    method LinkEdge(e: Edge)
      modifies this
      ensures nodes == Link(old(nodes), e)
      ensures unchanged(this`graph, this`metrics, this`initialized, this`initializing)
    {
      nodes := Wire(nodes, NodeName(e.a), NodeName(e.b), LinkOf(e, e.b));
      nodes := Wire(nodes, NodeName(e.b), NodeName(e.a), LinkOf(e, e.a));
    }

    /** The minimum number of short simple paths over the sampled pairs of node ids. */
    method MinPathRedundancy(an: Analysis) returns (r: nat)
      requires Valid() && |nodes| > 1
      ensures IsMinRedundancy(nodes, an, r)
    {
      r := MinRedundancy(nodes, an);
    }

    /**
     * `_compute_metrics`. Raises when the metrics object has been dropped by
     * `stop`. On an empty graph the counts and the density (0 below two
     * nodes) are written before the clustering average divides by zero;
     * otherwise every metric is recomputed, the minimum path redundancy only
     * above one node.
     */
    method ComputeMetrics(an: Analysis) returns (err: Option<string>)
      requires Valid()
      modifies this
      ensures Valid()
      ensures old(metrics).None? ==> err.Some? && metrics.None?
      ensures old(metrics).Some? ==> metrics.Some? && (err.None? <==> |graph.nodes| > 0)
      ensures old(metrics).Some? && |graph.nodes| == 0 ==>
        && err == Some("division by zero")
        && metrics == Some(old(metrics).value.(nodeCount := 0, edgeCount := |graph.edges|, density := 0.0))
      ensures old(metrics).Some? && |graph.nodes| > 0 ==>
        && metrics == Some(MetricsOf(old(metrics).value, graph, AllConnections(nodes), an, metrics.value.minPathRedundancy))
        && (|graph.nodes| > 1 && |nodes| > 1 ==> IsMinRedundancy(nodes, an, metrics.value.minPathRedundancy))
        && (|graph.nodes| > 1 && |nodes| <= 1 ==> metrics.value.minPathRedundancy == 0)
        && (|graph.nodes| <= 1 ==> metrics.value.minPathRedundancy == old(metrics).value.minPathRedundancy)
      ensures unchanged(this`nodes, this`graph, this`initialized, this`initializing)
    {
      if metrics.None? {
        return Some("'NoneType' object has no attribute 'node_count'");
      }
      if |graph.nodes| == 0 {
        metrics := Some(metrics.value.(nodeCount := 0, edgeCount := |graph.edges|, density := 0.0));
        return Some("division by zero");
      }
      var red := 0;
      if |graph.nodes| > 1 && |nodes| > 1 {
        red := MinPathRedundancy(an);
      }
      metrics := Some(MetricsOf(metrics.value, graph, AllConnections(nodes), an, red));
      return None;
    }

    /** Marks every node ACTIVE. */
    method ActivateAll()
      modifies this
      ensures Keys(nodes) == Keys(old(nodes))
      ensures forall i :: 0 <= i < |nodes| ==> nodes[i].1 == old(nodes)[i].1.(state := Active)
      ensures unchanged(this`graph, this`metrics, this`initialized, this`initializing)
    {
      var i := 0;
      while i < |nodes|
        invariant 0 <= i <= |nodes| && |nodes| == |old(nodes)|
        invariant forall k :: 0 <= k < |nodes| ==> nodes[k].0 == old(nodes)[k].0
        invariant forall k :: 0 <= k < i ==> nodes[k].1 == old(nodes)[k].1.(state := Active)
        invariant forall k :: i <= k < |nodes| ==> nodes[k] == old(nodes)[k]
        invariant unchanged(this`graph, this`metrics, this`initialized, this`initializing)
      {
        nodes := nodes[i := (nodes[i].0, nodes[i].1.(state := Active))];
        i := i + 1;
      }
    }

    /** Steps 1 to 4 of `initialize`: the generated graph, its nodes and its links. */
    method BuildTopology(g: Graph)
      requires Valid() && WellFormed(g)
      modifies this
      ensures Valid() && graph == g
      ensures forall k :: 0 <= k < |g.nodes| ==> HasKey(nodes, NodeName(g.nodes[k]))
      ensures forall k :: 0 <= k < |g.edges| ==> Linked(nodes, g.edges[k])
      ensures unchanged(this`metrics, this`initialized, this`initializing)
    {
      graph := g;
      InstantiateNodes();
      GraphEndpoints(g, nodes);
      ghost var named := nodes;
      EstablishConnections();
      SameKeysHaveLabels(named, nodes, g.nodes);
    }

    /** Step 7 of `initialize`: activating every node keeps the links. */
    method ActivateBuilt(g: Graph)
      requires Valid()
      requires forall k :: 0 <= k < |g.nodes| ==> HasKey(nodes, NodeName(g.nodes[k]))
      requires forall k :: 0 <= k < |g.edges| ==> Linked(nodes, g.edges[k])
      modifies this
      ensures Valid()
      ensures forall k :: 0 <= k < |g.nodes| ==> HasKey(nodes, NodeName(g.nodes[k]))
      ensures forall k :: 0 <= k < |g.edges| ==> Linked(nodes, g.edges[k])
      ensures forall i :: 0 <= i < |nodes| ==> nodes[i].1.state == Active
      ensures unchanged(this`graph, this`metrics, this`initialized, this`initializing)
    {
      ghost var wired := nodes;
      ActivateAll();
      ActivationKeepsLinks(wired, nodes, g);
    }

    /**
     * `initialize`: raises when already initialised; otherwise builds the
     * nodes and links, computes the metrics, activates every node and sets
     * the ready flag. It does not look at the background flag.
     */
    method Initialize(g: Graph, an: Analysis) returns (err: Option<string>)
      requires Valid() && WellFormed(g)
      modifies this
      ensures Valid()
      ensures old(initialized) ==> err == Some("Fabric already initialized") && unchanged(this)
      ensures !old(initialized) ==> graph == g && (err.None? <==> old(metrics).Some? && |g.nodes| > 0)
      ensures !old(initialized) && err.None? ==> initialized
      ensures !old(initialized) && err.None? ==> forall i :: 0 <= i < |nodes| ==> nodes[i].1.state == Active
      ensures !old(initialized) && err.None? ==> forall k :: 0 <= k < |g.nodes| ==> HasKey(nodes, NodeName(g.nodes[k]))
      ensures !old(initialized) && err.None? ==> forall k :: 0 <= k < |g.edges| ==> Linked(nodes, g.edges[k])
      ensures err.Some? ==> initialized == old(initialized)
      ensures initializing == old(initializing)
    {
      if initialized {
        return Some("Fabric already initialized");
      }
      err := Construct(g, an);
    }

    /**
     * Steps 1 to 8, shared by `initialize` and `_background_init`: the
     * topology, the metrics (which raise when dropped or for an empty graph),
     * then every node ACTIVE and the ready flag.
     */
    method Construct(g: Graph, an: Analysis) returns (err: Option<string>)
      requires Valid() && WellFormed(g)
      modifies this
      ensures Valid() && graph == g
      ensures err.None? <==> old(metrics).Some? && |g.nodes| > 0
      ensures err.None? ==> initialized
      ensures err.None? ==> forall i :: 0 <= i < |nodes| ==> nodes[i].1.state == Active
      ensures err.None? ==> forall k :: 0 <= k < |g.nodes| ==> HasKey(nodes, NodeName(g.nodes[k]))
      ensures err.None? ==> forall k :: 0 <= k < |g.edges| ==> Linked(nodes, g.edges[k])
      ensures err.Some? ==> initialized == old(initialized)
      ensures initializing == old(initializing)
    {
      BuildTopology(g);
      err := ComputeMetrics(an);
      if err.Some? {
        return;
      }
      ActivateBuilt(g);
      initialized := true;
    }

    /** `initialize_async`: raises when ready, does nothing while a background build runs, else starts one. */
    method InitializeAsync() returns (err: Option<string>, started: bool)
      modifies this
      ensures old(initialized) ==> err == Some("Fabric already initialized") && !started && unchanged(this)
      ensures !old(initialized) && old(initializing) ==> err.None? && !started && unchanged(this)
      ensures !old(initialized) && !old(initializing) ==> err.None? && started && initializing
      ensures unchanged(this`nodes, this`graph, this`metrics, this`initialized)
    {
      if initialized {
        return Some("Fabric already initialized"), false;
      }
      if initializing {
        return None, false;
      }
      initializing := true;
      return None, true;
    }

    /**
     * `_background_init`. `generationFails` stands for the topology
     * generator raising; any failure clears the background flag without
     * setting the ready flag, and the error is re-raised.
     */
    method BackgroundInit(g: Graph, an: Analysis, generationFails: bool) returns (err: Option<string>)
      requires Valid() && WellFormed(g)
      modifies this
      ensures Valid()
      ensures !initializing
      ensures err.None? <==> !generationFails && old(metrics).Some? && |g.nodes| > 0
      ensures err.None? ==> initialized && graph == g
      ensures err.None? ==> forall i :: 0 <= i < |nodes| ==> nodes[i].1.state == Active
      ensures err.None? ==> forall k :: 0 <= k < |g.edges| ==> Linked(nodes, g.edges[k])
      ensures err.Some? ==> initialized == old(initialized)
      ensures generationFails ==> unchanged(this`nodes, this`graph, this`metrics, this`initialized)
    {
      if generationFails {
        initializing := false;
        return Some("topology generation failed");
      }
      err := Construct(g, an);
      initializing := false;
    }

    /**
     * `broadcast_global`: raises when not ready; otherwise the sum of the
     * integer counts the nodes report, exceptions (None) ignored.
     */
    function BroadcastGlobal(reach: string -> Option<int>): (r: Result<int>)
      reads this
      ensures r.Err? <==> !initialized
      ensures r.Ok? ==> r.value == SumReached(Keys(nodes), reach)
    {
      if !initialized then Err("Fabric not initialized") else Ok(SumReached(Keys(nodes), reach))
    }

    /**
     * `activate_node`: nothing for an unknown node; otherwise records the
     * stimulus and asks for a spread when the activation is above 0.5, with
     * priority `int(activation * 10)`.
     */
    method ActivateNode(ref: NodeRef, activation: real) returns (spread: Option<Spread>)
      requires Valid()
      modifies this
      ensures Valid()
      ensures var id := RefId(ref);
        && (!HasKey(old(nodes), id) ==> spread.None? && unchanged(this))
        && (HasKey(old(nodes), id) ==> nodes == Put(old(nodes), id, Get(old(nodes), id).value.(stimulus := Some(activation))))
        && (spread.Some? <==> HasKey(old(nodes), id) && activation > 0.5)
        && (spread.Some? ==> spread.value == Spread(id, activation, (activation * 10.0).Floor))
      ensures unchanged(this`graph, this`metrics, this`initialized, this`initializing)
    {
      var id := RefId(ref);
      var node := Get(nodes, id);
      if node.None? {
        return None;
      }
      var i :| 0 <= i < |nodes| && nodes[i] == (id, node.value);
      assert exists m: nat :: id == NodeName(m);
      var m: nat :| id == NodeName(m);
      PutShaped(nodes, m, node.value.(stimulus := Some(activation)));
      nodes := Put(nodes, id, node.value.(stimulus := Some(activation)));
      if activation > 0.5 {
        spread := Some(Spread(id, activation, (activation * 10.0).Floor));
      } else {
        spread := None;
      }
    }

    /** `stop`: drops the nodes, the graph and the metrics; the flags are left as they are. */
    method Stop()
      modifies this
      ensures Valid()
      ensures nodes == [] && graph == EmptyGraph && metrics.None?
      ensures unchanged(this`initialized, this`initializing)
    {
      nodes := [];
      graph := EmptyGraph;
      metrics := None;
    }

    /** `enter_esgt_mode`: every node to ESGT_MODE, every weight to `min(w * 1.5, 2.0)`. */
    method EnterEsgtMode()
      modifies this
      ensures nodes == EnterAll(old(nodes))
      ensures unchanged(this`graph, this`metrics, this`initialized, this`initializing)
    {
      var i := 0;
      while i < |nodes|
        invariant 0 <= i <= |nodes| && |nodes| == |old(nodes)|
        invariant forall k :: 0 <= k < i ==> nodes[k] == (old(nodes)[k].0, EnterNode(old(nodes)[k].1))
        invariant forall k :: i <= k < |nodes| ==> nodes[k] == old(nodes)[k]
        invariant unchanged(this`graph, this`metrics, this`initialized, this`initializing)
      {
        var node := nodes[i].1;
        var conns := node.connections;
        var k := 0;
        while k < |conns|
          invariant 0 <= k <= |conns| && |conns| == |node.connections|
          invariant forall j :: 0 <= j < k ==> conns[j] == (node.connections[j].0, BoostConn(node.connections[j].1))
          invariant forall j :: k <= j < |conns| ==> conns[j] == node.connections[j]
        {
          conns := conns[k := (conns[k].0, BoostConn(conns[k].1))];
          k := k + 1;
        }
        assert conns == EnterNode(node).connections;
        nodes := nodes[i := (nodes[i].0, node.(state := EsgtMode, connections := conns))];
        i := i + 1;
      }
    }

    /** `exit_esgt_mode`: every node to ACTIVE, every weight to `max(w / 1.5, 1.0)`. */
    method ExitEsgtMode()
      modifies this
      ensures nodes == ExitAll(old(nodes))
      ensures unchanged(this`graph, this`metrics, this`initialized, this`initializing)
    {
      var i := 0;
      while i < |nodes|
        invariant 0 <= i <= |nodes| && |nodes| == |old(nodes)|
        invariant forall k :: 0 <= k < i ==> nodes[k] == (old(nodes)[k].0, ExitNode(old(nodes)[k].1))
        invariant forall k :: i <= k < |nodes| ==> nodes[k] == old(nodes)[k]
        invariant unchanged(this`graph, this`metrics, this`initialized, this`initializing)
      {
        var node := nodes[i].1;
        var conns := node.connections;
        var k := 0;
        while k < |conns|
          invariant 0 <= k <= |conns| && |conns| == |node.connections|
          invariant forall j :: 0 <= j < k ==> conns[j] == (node.connections[j].0, RelaxConn(node.connections[j].1))
          invariant forall j :: k <= j < |conns| ==> conns[j] == node.connections[j]
        {
          conns := conns[k := (conns[k].0, RelaxConn(conns[k].1))];
          k := k + 1;
        }
        assert conns == ExitNode(node).connections;
        nodes := nodes[i := (nodes[i].0, node.(state := Active, connections := conns))];
        i := i + 1;
      }
    }
  }

  /** The path count between the `i`-th and `j`-th node ids, read back as labels. */
  function PairPaths(d: Dict<string, Node>, an: Analysis, i: nat, j: nat): nat
  {
    if i < |d| && j < |d| then
      var a := NodeNumber(d[i].0);
      var b := NodeNumber(d[j].0);
      if a.Some? && b.Some? then an.simplePaths(a.value, b.value) else 0
    else 0
  }

  /** `r` is the minimum path count over the sampled pairs, and some sampled pair has it. */
  ghost predicate IsMinRedundancy(d: Dict<string, Node>, an: Analysis, r: nat) {
    && (forall i: nat, j: nat :: Sampled(|d|, i, j) ==> r <= PairPaths(d, an, i, j))
    && (exists i: nat, j: nat :: Sampled(|d|, i, j) && r == PairPaths(d, an, i, j))
  }

  /**
   * The double loop of `_compute_metrics` over the first ten nodes and the
   * ten after each, keeping the smallest path count.
   */
  method MinRedundancy(d: Dict<string, Node>, an: Analysis) returns (r: nat)
    requires |d| > 1
    ensures IsMinRedundancy(d, an, r)
  {
    var n := |d|;
    r := PairPaths(d, an, 0, 1);
    ghost var wi: nat, wj: nat := 0, 1;
    var i := 0;
    while i < n && i < 10
      invariant 0 <= i <= n
      invariant Sampled(n, wi, wj) && r == PairPaths(d, an, wi, wj)
      invariant forall a: nat, b: nat :: Sampled(n, a, b) && a < i ==> r <= PairPaths(d, an, a, b)
    {
      r, wi, wj := RowMin(d, an, i, r, wi, wj);
      i := i + 1;
    }
  }

  /** The inner loop: the smallest of `r` and the path counts from node `i` to the ten after it. */
  method RowMin(d: Dict<string, Node>, an: Analysis, i: nat, r0: nat, ghost wi0: nat, ghost wj0: nat)
    returns (r: nat, ghost wi: nat, ghost wj: nat)
    requires i < |d| && i < 10
    requires Sampled(|d|, wi0, wj0) && r0 == PairPaths(d, an, wi0, wj0)
    ensures r <= r0
    ensures Sampled(|d|, wi, wj) && r == PairPaths(d, an, wi, wj)
    ensures forall b: nat :: Sampled(|d|, i, b) ==> r <= PairPaths(d, an, i, b)
  {
    r, wi, wj := r0, wi0, wj0;
    var j := i + 1;
    while j < |d| && j < i + 11
      invariant i + 1 <= j <= |d| && r <= r0
      invariant Sampled(|d|, wi, wj) && r == PairPaths(d, an, wi, wj)
      invariant forall b: nat :: Sampled(|d|, i, b) && b < j ==> r <= PairPaths(d, an, i, b)
    {
      var count := PairPaths(d, an, i, j);
      if count < r {
        r := count;
        wi, wj := i, j;
      }
      j := j + 1;
    }
  }

  /** The label read back from each node id is the one the id was made from. */
  lemma PairPathsLabels(d: Dict<string, Node>, an: Analysis, i: nat, j: nat, a: nat, b: nat)
    requires i < |d| && j < |d|
    requires d[i].0 == NodeName(a) && d[j].0 == NodeName(b)
    ensures PairPaths(d, an, i, j) == an.simplePaths(a, b)
  {
    NodeNumberOfName(a);
    NodeNumberOfName(b);
  }

  lemma GraphEndpoints(g: Graph, d: Dict<string, Node>)
    requires WellFormed(g)
    requires forall k :: 0 <= k < |g.nodes| ==> Get(d, NodeName(g.nodes[k])) == Some(FreshNode(g.nodes[k]))
    ensures Endpoints(d, g.edges)
  {
    forall k | 0 <= k < |g.edges| ensures HasKey(d, NodeName(g.edges[k].a)) && HasKey(d, NodeName(g.edges[k].b)) {
      var ka :| 0 <= ka < |g.nodes| && g.nodes[ka] == g.edges[k].a;
      var kb :| 0 <= kb < |g.nodes| && g.nodes[kb] == g.edges[k].b;
    }
  }

  lemma SameKeysHaveLabels(before: Dict<string, Node>, after: Dict<string, Node>, labels: seq<nat>)
    requires Keys(after) == Keys(before)
    requires forall k :: 0 <= k < |labels| ==> Get(before, NodeName(labels[k])) == Some(FreshNode(labels[k]))
    ensures forall k :: 0 <= k < |labels| ==> HasKey(after, NodeName(labels[k]))
  {
    forall k | 0 <= k < |labels| ensures HasKey(after, NodeName(labels[k])) {
      KeysHasKey(before, after, NodeName(labels[k]));
    }
  }

  lemma ActivationKeepsLinks(wired: Dict<string, Node>, after: Dict<string, Node>, g: Graph)
    requires ShapedNodes(wired) && Keys(after) == Keys(wired)
    requires forall i :: 0 <= i < |after| ==> after[i].1 == wired[i].1.(state := Active)
    requires forall k :: 0 <= k < |g.nodes| ==> HasKey(wired, NodeName(g.nodes[k]))
    requires forall k :: 0 <= k < |g.edges| ==> Linked(wired, g.edges[k])
    ensures ShapedNodes(after)
    ensures forall k :: 0 <= k < |g.nodes| ==> HasKey(after, NodeName(g.nodes[k]))
    ensures forall k :: 0 <= k < |g.edges| ==> Linked(after, g.edges[k])
  {
    ActivateKeepsShape(wired, after);
    forall k | 0 <= k < |g.edges| ensures Linked(after, g.edges[k]) {
      var e := g.edges[k];
      ActivePreservesConns(wired, after, NodeName(e.a), NodeName(e.b));
      ActivePreservesConns(wired, after, NodeName(e.b), NodeName(e.a));
    }
    forall k | 0 <= k < |g.nodes| ensures HasKey(after, NodeName(g.nodes[k])) {
      KeysHasKey(wired, after, NodeName(g.nodes[k]));
    }
  }

  /** The node id an `activate_node` argument names. */
  function RefId(ref: NodeRef): string {
    match ref
    case Label(n) => NodeNameOf(n)
    case Id(s) => s
  }

  function SumReached(ids: seq<string>, reach: string -> Option<int>): int {
    if ids == [] then 0
    else (match reach(ids[0]) case Some(k) => k case None => 0) + SumReached(ids[1..], reach)
  }

  /** Nodes that all raise reach nobody; counts that are never negative add up to a non-negative total. */
  lemma {:induction false} SumReachedBounds(ids: seq<string>, reach: string -> Option<int>)
    ensures (forall i :: 0 <= i < |ids| ==> reach(ids[i]).None?) ==> SumReached(ids, reach) == 0
    ensures (forall i :: 0 <= i < |ids| ==> reach(ids[i]).Some? ==> reach(ids[i]).value >= 0) ==> SumReached(ids, reach) >= 0
  {
    if ids != [] {
      SumReachedBounds(ids[1..], reach);
      assert forall i :: 0 <= i < |ids| - 1 ==> ids[1..][i] == ids[i + 1];
    }
  }

  lemma ActivateKeepsShape(before: Dict<string, Node>, after: Dict<string, Node>)
    requires ShapedNodes(before) && Keys(after) == Keys(before)
    requires forall i :: 0 <= i < |after| ==> after[i].1 == before[i].1.(state := Active)
    ensures ShapedNodes(after)
  {
    assert forall i :: 0 <= i < |after| ==> after[i].0 == before[i].0;
  }

  lemma ActivePreservesConns(before: Dict<string, Node>, after: Dict<string, Node>, x: string, y: string)
    requires DistinctKeys(before) && Keys(after) == Keys(before)
    requires forall i :: 0 <= i < |after| ==> after[i].1 == before[i].1.(state := Active)
    ensures ConnAt(after, x, y) == ConnAt(before, x, y)
  {
    assert DistinctKeys(after) by {
      assert forall i :: 0 <= i < |after| ==> after[i].0 == before[i].0;
    }
    var gb := Get(before, x);
    if gb.Some? {
      var i :| 0 <= i < |before| && before[i] == (x, gb.value);
      assert after[i].0 == x;
      GetAt(after, i);
      GetAt(before, i);
    } else {
      forall i | 0 <= i < |after| ensures after[i].0 != x {
        assert after[i].0 == before[i].0;
      }
    }
  }
}
