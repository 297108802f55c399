/**
 * Building a networkx MultiGraph from skan's summary of a skeleton
 * (src/skeleplex/graph/image_to_graph.py). Skeletonising the image and
 * summarising it are skan's work: the summary rows and the path of each
 * row are inputs.
 */
module ImageToGraph {
  import opened Vectors

  /** The edge attribute that holds a branch's path. */
  const PathKey: string := "path"
  /** `EDGE_SPLINE_KEY` of src/skeleplex/graph/constants.py. */
  const SplineKey: string := "spline"
  /** `NODE_COORDINATE_KEY` of src/skeleplex/graph/constants.py. */
  const NodeCoordinateKey: string := "node_coordinate"

  /** One row of skan's summary table: its index and the ids of the branch's two end nodes. */
  datatype SummaryRow = SummaryRow(index: int, nodeIdSrc: int, nodeIdDst: int)

  /** A skan Skeleton, reduced to what the builder reads from it. */
  datatype Skeleton = Skeleton(skeletonShape: seq<int>, skeletonDtype: string,
                               pathCoordinates: int -> seq<Vec3>)

  /** One edge of a multigraph: its two end nodes, its key among parallel edges, and its attributes. */
  datatype Edge = Edge(u: int, v: int, key: nat, attributes: map<string, seq<Vec3>>)

  /** Whether edge e joins u and v; edges are undirected. */
  predicate Joins(e: Edge, u: int, v: int) {
    (e.u == u && e.v == v) || (e.u == v && e.v == u)
  }

  /** How many of the edges join u and v. */
  function CountJoining(edges: seq<Edge>, u: int, v: int): (n: nat)
    ensures n <= |edges|
  {
    if edges == [] then 0
    else CountJoining(edges[..|edges| - 1], u, v) + (if Joins(edges[|edges| - 1], u, v) then 1 else 0)
  }

  /** The node list after adding n: unchanged if n is already there, else n at the end. */
  function WithNode(nodes: seq<int>, n: int): (r: seq<int>)
    ensures n in r && (forall m :: m in r <==> m in nodes || m == n)
  {
    if n in nodes then nodes else nodes + [n]
  }

  /** Every element of the list occurs once. */
  ghost predicate Distinct(nodes: seq<int>) {
    forall i, j :: 0 <= i < j < |nodes| ==> nodes[i] != nodes[j]
  }

  /** The attribute dictionaries after adding node n: a new node gets an empty one. */
  function WithEmptyNode(attributes: map<int, map<string, Vec3>>, n: int): (r: map<int, map<string, Vec3>>)
    ensures r.Keys == attributes.Keys + {n}
    ensures forall m :: m in r ==> r[m] == if m in attributes then attributes[m] else map[]
  {
    if n in attributes then attributes else attributes[n := map[]]
  }

  /** No node has any attribute: every node's attribute dictionary is empty. */
  predicate Unattributed(attributes: map<int, map<string, Vec3>>) {
    forall n :: n in attributes ==> attributes[n] == map[]
  }

  lemma AddNodeKeepsUnattributed(attributes: map<int, map<string, Vec3>>, n: int)
    requires Unattributed(attributes)
    ensures Unattributed(WithEmptyNode(attributes, n))
  {
  }

  /** Every node is listed once and has an attribute dictionary; every edge's ends are nodes. */
  ghost predicate Consistent(nodes: seq<int>, attributes: map<int, map<string, Vec3>>, edges: seq<Edge>) {
    && Distinct(nodes)
    && (forall n :: n in attributes <==> n in nodes)
    && (forall k :: 0 <= k < |edges| ==> edges[k].u in attributes && edges[k].v in attributes)
  }

  lemma AddNodeKeepsConsistent(nodes: seq<int>, attributes: map<int, map<string, Vec3>>, edges: seq<Edge>, n: int)
    requires Consistent(nodes, attributes, edges)
    ensures Consistent(WithNode(nodes, n), WithEmptyNode(attributes, n), edges)
  {
    WithNodeKeepsDistinct(nodes, n);
  }

  lemma AddEdgeKeepsConsistent(nodes: seq<int>, attributes: map<int, map<string, Vec3>>, edges: seq<Edge>, e: Edge)
    requires Consistent(nodes, attributes, edges)
    requires e.u in attributes && e.v in attributes
    ensures Consistent(nodes, attributes, edges + [e])
  {
  }

  /**
   * A networkx MultiGraph: nodes in the order they were added, each with its
   * attribute dictionary, and edges in the order they were added. The graph
   * attributes `shape` and `dtype` are set when it is made.
   */
  class MultiGraph {
    var nodes: seq<int>
    var nodeAttributes: map<int, map<string, Vec3>>
    var edges: seq<Edge>
    var shape: seq<int>
    var dtype: string

    ghost predicate Valid()
      reads this
    {
      Consistent(nodes, nodeAttributes, edges)
    }

    /** `nx.MultiGraph(shape=..., dtype=...)`: no nodes, no edges, two graph attributes. */
    constructor (shape: seq<int>, dtype: string)
      ensures Valid()
      ensures nodes == [] && nodeAttributes == map[] && edges == []
      ensures this.shape == shape && this.dtype == dtype
    {
      nodes := [];
      nodeAttributes := map[];
      edges := [];
      this.shape := shape;
      this.dtype := dtype;
    }

    /**
     * `add_edge(u, v, **attributes)`: a missing end node is added with an
     * empty attribute dictionary, u before v, and a new edge is appended whose
     * key is the number of edges already joining u and v (networkx's
     * `new_edge_key` when no edge has been removed). The key is returned.
     */
    method AddEdge(u: int, v: int, attributes: map<string, seq<Vec3>>) returns (key: nat)
      requires Valid()
      modifies this
      ensures Valid()
      ensures key == CountJoining(old(edges), u, v)
      ensures edges == old(edges) + [Edge(u, v, key, attributes)]
      ensures nodes == WithNode(WithNode(old(nodes), u), v)
      ensures nodeAttributes == WithEmptyNode(WithEmptyNode(old(nodeAttributes), u), v)
      ensures shape == old(shape) && dtype == old(dtype)
    {
      AddNodeKeepsConsistent(nodes, nodeAttributes, edges, u);
      nodes, nodeAttributes := WithNode(nodes, u), WithEmptyNode(nodeAttributes, u);
      AddNodeKeepsConsistent(nodes, nodeAttributes, edges, v);
      nodes, nodeAttributes := WithNode(nodes, v), WithEmptyNode(nodeAttributes, v);
      key := CountJoining(edges, u, v);
      AddEdgeKeepsConsistent(nodes, nodeAttributes, edges, Edge(u, v, key, attributes));
      edges := edges + [Edge(u, v, key, attributes)];
    }
  }

  /** The edge a row adds: between its end nodes, with the row's path as the only attribute. */
  function RowEdge(skeleton: Skeleton, row: SummaryRow, key: nat): Edge {
    Edge(row.nodeIdSrc, row.nodeIdDst, key, map[PathKey := skeleton.pathCoordinates(row.index)])
  }

  /** The edges after adding the rows one after the other. */
  function EdgesFor(skeleton: Skeleton, rows: seq<SummaryRow>): (edges: seq<Edge>)
    decreases |rows|
  {
    if rows == [] then []
    else
      var before := EdgesFor(skeleton, rows[..|rows| - 1]);
      var row := rows[|rows| - 1];
      before + [RowEdge(skeleton, row, CountJoining(before, row.nodeIdSrc, row.nodeIdDst))]
  }

  /** The nodes after adding the rows one after the other. */
  function NodesFor(rows: seq<SummaryRow>): (nodes: seq<int>)
    decreases |rows|
  {
    if rows == [] then []
    else
      var row := rows[|rows| - 1];
      WithNode(WithNode(NodesFor(rows[..|rows| - 1]), row.nodeIdSrc), row.nodeIdDst)
  }

  /** Adding row k to the first k rows appends its edge and adds its end nodes. */
  lemma RowStep(skeleton: Skeleton, rows: seq<SummaryRow>, k: nat)
    requires k < |rows|
    ensures var before := EdgesFor(skeleton, rows[..k]);
      EdgesFor(skeleton, rows[..k + 1])
      == before + [RowEdge(skeleton, rows[k], CountJoining(before, rows[k].nodeIdSrc, rows[k].nodeIdDst))]
    ensures NodesFor(rows[..k + 1]) == WithNode(WithNode(NodesFor(rows[..k]), rows[k].nodeIdSrc), rows[k].nodeIdDst)
  {
    assert rows[..k + 1][..k] == rows[..k];
  }

  /**
   * `image_to_graph_skan` from the summary rows on: a MultiGraph carrying the
   * skeleton's shape and dtype, with one `add_edge` per row, in row order.
   * No node attribute is ever set.
   */
  method ImageToGraphSkan(skeleton: Skeleton, rows: seq<SummaryRow>) returns (graph: MultiGraph)
    ensures fresh(graph) && graph.Valid()
    ensures graph.edges == EdgesFor(skeleton, rows)
    ensures graph.nodes == NodesFor(rows)
    ensures Unattributed(graph.nodeAttributes)
    ensures forall n :: n in graph.nodeAttributes ==> NodeCoordinateKey !in graph.nodeAttributes[n]
    ensures graph.shape == skeleton.skeletonShape && graph.dtype == skeleton.skeletonDtype
  {
    graph := new MultiGraph(skeleton.skeletonShape, skeleton.skeletonDtype);
    for k := 0 to |rows|
      invariant graph.Valid()
      invariant graph.edges == EdgesFor(skeleton, rows[..k])
      invariant graph.nodes == NodesFor(rows[..k])
      invariant Unattributed(graph.nodeAttributes)
      invariant graph.shape == skeleton.skeletonShape && graph.dtype == skeleton.skeletonDtype
    {
      var row := rows[k];
      var index := row.index;
      var i := row.nodeIdSrc;
      var j := row.nodeIdDst;
      RowStep(skeleton, rows, k);
      AddNodeKeepsUnattributed(graph.nodeAttributes, i);
      AddNodeKeepsUnattributed(WithEmptyNode(graph.nodeAttributes, i), j);
      var _ := graph.AddEdge(i, j, map[PathKey := skeleton.pathCoordinates(index)]);
    }
    assert rows[..|rows|] == rows;
  }

  // ---------------------------------------------------------------------------
  // What the built graph holds

  /** Every row adds exactly one edge: between the row's end nodes, with the row's path as its only attribute. */
  lemma {:induction false} OneEdgePerRow(skeleton: Skeleton, rows: seq<SummaryRow>)
    ensures |EdgesFor(skeleton, rows)| == |rows|
    ensures forall k :: 0 <= k < |rows| ==>
      var e := EdgesFor(skeleton, rows)[k];
      && e.u == rows[k].nodeIdSrc && e.v == rows[k].nodeIdDst
      && e.attributes == map[PathKey := skeleton.pathCoordinates(rows[k].index)]
      && e.attributes.Keys == {PathKey} && SplineKey !in e.attributes
    decreases |rows|
  {
    if rows != [] {
      var before := rows[..|rows| - 1];
      OneEdgePerRow(skeleton, before);
      forall k | 0 <= k < |rows| - 1
        ensures EdgesFor(skeleton, rows)[k] == EdgesFor(skeleton, before)[k]
      {
      }
    }
  }

  /** The end nodes of the rows: every source and every destination. */
  ghost function RowEnds(rows: seq<SummaryRow>): set<int> {
    (set row | row in rows :: row.nodeIdSrc) + (set row | row in rows :: row.nodeIdDst)
  }

  lemma RowEndsAppend(rows: seq<SummaryRow>, row: SummaryRow)
    ensures RowEnds(rows + [row]) == RowEnds(rows) + {row.nodeIdSrc, row.nodeIdDst}
  {
    var all := rows + [row];
    assert forall r :: r in all <==> r in rows || r == row;
  }

  lemma WithNodeKeepsDistinct(nodes: seq<int>, n: int)
    requires Distinct(nodes)
    ensures Distinct(WithNode(nodes, n))
  {
    if n !in nodes {
      var r := nodes + [n];
      forall i, j | 0 <= i < j < |r|
        ensures r[i] != r[j]
      {
        if j == |nodes| {
          assert r[i] == nodes[i];
        }
      }
    }
  }

  /** The nodes are exactly the rows' end nodes, each listed once: add_edge creates them. */
  lemma {:induction false} NodesAreRowEnds(rows: seq<SummaryRow>)
    ensures Distinct(NodesFor(rows))
    ensures forall n :: n in NodesFor(rows) <==> n in RowEnds(rows)
    decreases |rows|
  {
    if rows != [] {
      var before := rows[..|rows| - 1];
      var row := rows[|rows| - 1];
      assert rows == before + [row];
      NodesAreRowEnds(before);
      var middle := WithNode(NodesFor(before), row.nodeIdSrc);
      WithNodeKeepsDistinct(NodesFor(before), row.nodeIdSrc);
      WithNodeKeepsDistinct(middle, row.nodeIdDst);
      RowEndsAppend(before, row);
    }
  }

  /** Counting over one more edge adds one exactly when that edge joins u and v. */
  lemma CountStep(edges: seq<Edge>, i: int, u: int, v: int)
    requires 0 <= i < |edges|
    ensures CountJoining(edges[..i + 1], u, v) == CountJoining(edges[..i], u, v) + (if Joins(edges[i], u, v) then 1 else 0)
  {
    assert edges[..i + 1][..i] == edges[..i];
  }

  /** A longer prefix joins u and v at least as often. */
  lemma {:induction false} CountGrows(edges: seq<Edge>, i: int, j: int, u: int, v: int)
    requires 0 <= i <= j <= |edges|
    ensures CountJoining(edges[..i], u, v) <= CountJoining(edges[..j], u, v)
    decreases j - i
  {
    if i < j {
      CountGrows(edges, i, j - 1, u, v);
      CountStep(edges, j - 1, u, v);
    }
  }

  /** An undirected edge joins u and v exactly when it joins v and u, so the counts agree. */
  lemma {:induction false} CountIsSymmetric(edges: seq<Edge>, u: int, v: int)
    ensures CountJoining(edges, u, v) == CountJoining(edges, v, u)
    decreases |edges|
  {
    if edges != [] {
      CountIsSymmetric(edges[..|edges| - 1], u, v);
    }
  }

  /** Each edge's key is the number of earlier edges between the same two nodes. */
  lemma {:induction false} KeysCountEarlierEdges(skeleton: Skeleton, rows: seq<SummaryRow>)
    ensures forall k :: 0 <= k < |EdgesFor(skeleton, rows)| ==>
      var edges := EdgesFor(skeleton, rows);
      edges[k].key == CountJoining(edges[..k], edges[k].u, edges[k].v)
    decreases |rows|
  {
    if rows != [] {
      var before := rows[..|rows| - 1];
      var edges := EdgesFor(skeleton, rows);
      var earlier := EdgesFor(skeleton, before);
      KeysCountEarlierEdges(skeleton, before);
      assert edges[..|earlier|] == earlier;
      forall k | 0 <= k < |earlier|
        ensures edges[k].key == CountJoining(edges[..k], edges[k].u, edges[k].v)
      {
        assert edges[..k] == earlier[..k];
        assert edges[k] == earlier[k];
      }
    }
  }

  /**
   * Rows between the same two nodes, in either direction and including
   * self-loops, give parallel edges with increasing keys: a multigraph keeps
   * them all apart.
   */
  lemma ParallelEdgesAreKept(skeleton: Skeleton, rows: seq<SummaryRow>, i: int, j: int)
    requires 0 <= i < j < |rows|
    requires (rows[i].nodeIdSrc == rows[j].nodeIdSrc && rows[i].nodeIdDst == rows[j].nodeIdDst)
          || (rows[i].nodeIdSrc == rows[j].nodeIdDst && rows[i].nodeIdDst == rows[j].nodeIdSrc)
    ensures |EdgesFor(skeleton, rows)| == |rows|
    ensures EdgesFor(skeleton, rows)[i].key < EdgesFor(skeleton, rows)[j].key
  {
    OneEdgePerRow(skeleton, rows);
    KeysCountEarlierEdges(skeleton, rows);
    var edges := EdgesFor(skeleton, rows);
    var u, v := edges[i].u, edges[i].v;
    CountIsSymmetric(edges[..j], u, v);
    assert edges[j].key == CountJoining(edges[..j], u, v);
    CountStep(edges, i, u, v);
    CountGrows(edges, i + 1, j, u, v);
  }

  /**
   * The T-shaped skeleton: three branches meeting at node 1 give a graph of
   * three edges and four nodes.
   */
  lemma SimpleTHasThreeEdges(skeleton: Skeleton)
    ensures var rows := [SummaryRow(0, 0, 1), SummaryRow(1, 1, 2), SummaryRow(2, 1, 3)];
      |EdgesFor(skeleton, rows)| == 3 && NodesFor(rows) == [0, 1, 2, 3]
  {
    var rows := [SummaryRow(0, 0, 1), SummaryRow(1, 1, 2), SummaryRow(2, 1, 3)];
    OneEdgePerRow(skeleton, rows);
    assert rows[..1] == [SummaryRow(0, 0, 1)] && rows[..1][..0] == [];
    assert NodesFor(rows[..1]) == [0, 1];
    assert rows[..2] == [SummaryRow(0, 0, 1), SummaryRow(1, 1, 2)] && rows[..2][..1] == rows[..1];
    assert NodesFor(rows[..2]) == [0, 1, 2];
    assert rows[..3] == rows;
  }
}
