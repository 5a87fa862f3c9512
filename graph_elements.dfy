/**
 * Turning the server's graph elements into the nodes and edges the graph
 * view draws (`transformGraphElements`, written once for the Next.js
 * front-end and once for the legacy one), and reading a node type out of a
 * label (`extractNodeType` / `getNodeTypeFromLabel`).
 */
module GraphElements {
  import opened Wrappers
  import opened Seqs
  import opened Strings
  import opened OrderedMaps

  /**
   * The `data` of one element as the server sends it. An absent `source`,
   * `target` or `label` is the empty string and absent `types` the empty
   * list; both read as false-y exactly as the absent value does.
   */
  datatype ElementData = ElementData(id: string, source: string, target: string, labelText: string, types: seq<string>)

  /** An element is an edge when both its source and its target are non-empty. */
  predicate IsEdge(e: ElementData) {
    e.source != "" && e.target != ""
  }

  predicate IsNode(e: ElementData) {
    !IsEdge(e)
  }

  /** The `(id, node)` pairs written into the node map, in element order. */
  function NodePairs<N>(elements: seq<ElementData>, mkNode: ElementData -> N): seq<(string, N)> {
    Map(Filter(elements, IsNode), NodePair(mkNode))
  }

  function NodePair<N>(mkNode: ElementData -> N): ElementData -> (string, N) {
    (e: ElementData) => (e.id, mkNode(e))
  }

  /** The ids of the node elements, in element order and with repetitions. */
  function NodeIds(elements: seq<ElementData>): (r: seq<string>)
    ensures |r| == |Filter(elements, IsNode)|
  {
    Map(Filter(elements, IsNode), (e: ElementData) => e.id)
  }

  /**
   * One pass over the elements: an edge is appended to the edge list, a node
   * is `set` in an insertion-ordered map under its id; the nodes are then
   * the map's values.
   */
  method TransformElements<N, E>(elements: seq<ElementData>, mkNode: ElementData -> N, mkEdge: ElementData -> E)
    returns (nodes: seq<N>, edges: seq<E>)
    ensures nodes == ValuesOf(NodePairs(elements, mkNode))
    ensures edges == Map(Filter(elements, IsEdge), mkEdge)
  {
    var nodesMap: OrderedMap<string, N> := Empty();
    edges := [];
    for k := 0 to |elements|
      invariant nodesMap == FromPairs(NodePairs(elements[..k], mkNode))
      invariant edges == Map(Filter(elements[..k], IsEdge), mkEdge)
    {
      var e := elements[k];
      if IsEdge(e) {
        EdgeElementStep(elements, k, mkNode, mkEdge);
        edges := edges + [mkEdge(e)];
      } else {
        NodeElementStep(elements, k, mkNode, mkEdge);
        nodesMap := Put(nodesMap, e.id, mkNode(e));
      }
    }
    assert elements[..|elements|] == elements;
    FromPairsSpec(NodePairs(elements, mkNode));
    nodes := Values(nodesMap);
  }

  /** One more edge element extends the edge list and leaves the node pairs as they were. */
  lemma EdgeElementStep<N, E>(elements: seq<ElementData>, k: nat, mkNode: ElementData -> N, mkEdge: ElementData -> E)
    requires k < |elements| && IsEdge(elements[k])
    ensures NodePairs(elements[..k + 1], mkNode) == NodePairs(elements[..k], mkNode)
    ensures Map(Filter(elements[..k + 1], IsEdge), mkEdge) == Map(Filter(elements[..k], IsEdge), mkEdge) + [mkEdge(elements[k])]
  {
    FilterPrefixStep(elements, k, IsEdge);
    FilterPrefixStep(elements, k, IsNode);
    MapAppend(Filter(elements[..k], IsEdge), [elements[k]], mkEdge);
  }

  /** One more node element is put into the node map and leaves the edge list as it was. */
  lemma NodeElementStep<N, E>(elements: seq<ElementData>, k: nat, mkNode: ElementData -> N, mkEdge: ElementData -> E)
    requires k < |elements| && IsNode(elements[k])
    ensures FromPairs(NodePairs(elements[..k + 1], mkNode)) == Put(FromPairs(NodePairs(elements[..k], mkNode)), elements[k].id, mkNode(elements[k]))
    ensures Map(Filter(elements[..k + 1], IsEdge), mkEdge) == Map(Filter(elements[..k], IsEdge), mkEdge)
  {
    var e := elements[k];
    FilterPrefixStep(elements, k, IsEdge);
    FilterPrefixStep(elements, k, IsNode);
    MapAppend(Filter(elements[..k], IsNode), [e], NodePair(mkNode));
    var pairs := NodePairs(elements[..k + 1], mkNode);
    assert pairs == NodePairs(elements[..k], mkNode) + [(e.id, mkNode(e))];
    assert pairs[..|pairs| - 1] == NodePairs(elements[..k], mkNode);
  }

  lemma NodePairKeys<N>(elements: seq<ElementData>, mkNode: ElementData -> N)
    ensures KeysOf(NodePairs(elements, mkNode)) == NodeIds(elements)
  {
  }

  /**
   * One node per distinct node id, in order of the id's first appearance,
   * built from the id's last node element; and every edge element gives
   * exactly one edge.
   */
  lemma TransformElementsSpec<N, E>(elements: seq<ElementData>, mkNode: ElementData -> N, mkEdge: ElementData -> E,
                                    nodes: seq<N>, edges: seq<E>)
    requires nodes == ValuesOf(NodePairs(elements, mkNode))
    requires edges == Map(Filter(elements, IsEdge), mkEdge)
    ensures |nodes| == |Unique(NodeIds(elements))| <= |Filter(elements, IsNode)|
    ensures forall i :: 0 <= i < |nodes| ==>
      exists e :: e in elements && IsNode(e) && e.id == Unique(NodeIds(elements))[i] && nodes[i] == mkNode(e)
    ensures |edges| == Count(elements, IsEdge)
    ensures forall i :: 0 <= i < |edges| ==> exists e :: e in elements && IsEdge(e) && edges[i] == mkEdge(e)
  {
    var pairs := NodePairs(elements, mkNode);
    var ids := Unique(NodeIds(elements));
    NodePairKeys(elements, mkNode);
    UniqueNoLonger(NodeIds(elements));
    FilterSpec(elements, IsNode);
    FilterSpec(elements, IsEdge);
    forall i | 0 <= i < |nodes|
      ensures exists e :: e in elements && IsNode(e) && e.id == ids[i] && nodes[i] == mkNode(e)
    {
      LastValuePaired(pairs, ids[i]);
      var j :| 0 <= j < |pairs| && pairs[j] == (ids[i], LastValue(pairs, ids[i]));
      var e := Filter(elements, IsNode)[j];
      assert e in elements && IsNode(e);
    }
    forall i | 0 <= i < |edges|
      ensures exists e :: e in elements && IsEdge(e) && edges[i] == mkEdge(e)
    {
      var e := Filter(elements, IsEdge)[i];
      assert e in elements && IsEdge(e);
    }
  }

  /** The value kept for a key is one it was paired with. */
  lemma {:induction false} LastValuePaired<K, V>(pairs: seq<(K, V)>, k: K)
    requires k in KeysOf(pairs)
    ensures exists j :: 0 <= j < |pairs| && pairs[j] == (k, LastValue(pairs, k))
  {
    var last := pairs[|pairs| - 1];
    if last.0 != k {
      var prefix := pairs[..|pairs| - 1];
      assert KeysOf(pairs) == KeysOf(prefix) + [last.0];
      LastValuePaired(prefix, k);
      var j :| 0 <= j < |prefix| && prefix[j] == (k, LastValue(prefix, k));
      assert pairs[j] == prefix[j];
    } else {
      assert pairs[|pairs| - 1] == (k, LastValue(pairs, k));
    }
  }

  /** Dropping repetitions never lengthens a sequence. */
  lemma {:induction false} UniqueNoLonger<T>(s: seq<T>)
    ensures |Unique(s)| <= |s|
  {
    var u := Unique(s);
    var su := set i | 0 <= i < |u| :: u[i];
    var ss := set i | 0 <= i < |s| :: s[i];
    NoDupCard(u);
    assert su <= ss;
    SeqSetCard(s);
    SetSubsetCard(su, ss);
  }

  lemma SetSubsetCard<T>(a: set<T>, b: set<T>)
    requires a <= b
    ensures |a| <= |b|
  {
    assert b == a + (b - a);
  }

  /** A sequence without repetitions has as many distinct elements as positions. */
  lemma {:induction false} NoDupCard<T>(s: seq<T>)
    requires NoDup(s)
    ensures |set i | 0 <= i < |s| :: s[i]| == |s|
  {
    if s != [] {
      var p := s[..|s| - 1];
      assert NoDup(p);
      NoDupCard(p);
      var sp := set i | 0 <= i < |p| :: p[i];
      var ss := set i | 0 <= i < |s| :: s[i];
      assert ss == sp + {s[|s| - 1]};
      assert s[|s| - 1] !in sp;
    }
  }

  /** A sequence has at most as many distinct elements as positions. */
  lemma {:induction false} SeqSetCard<T>(s: seq<T>)
    ensures |set i | 0 <= i < |s| :: s[i]| <= |s|
  {
    if s != [] {
      var p := s[..|s| - 1];
      SeqSetCard(p);
      var sp := set i | 0 <= i < |p| :: p[i];
      var ss := set i | 0 <= i < |s| :: s[i];
      assert ss == sp + {s[|s| - 1]};
    }
  }

  // ---------------------------------------------------------------------------
  // The two front-ends' element shapes
  // ---------------------------------------------------------------------------

  /** A node as the Next.js graph view draws it. */
  datatype CyNode = CyNode(id: string, labelText: string, types: seq<string>)

  /** An edge as both graph views draw it (`kind` is the legacy front-end's `type`). */
  datatype CyEdge = CyEdge(id: string, source: string, target: string, labelText: string, kind: string)

  function CyNodeId(n: CyNode): string { n.id }

  /** Next.js: an empty label becomes `node`. */
  function TsNode(e: ElementData): (n: CyNode)
    ensures n.id == e.id && n.types == e.types
    ensures n.labelText != "" && (e.labelText != "" ==> n.labelText == e.labelText)
  {
    CyNode(e.id, if e.labelText == "" then "node" else e.labelText, e.types)
  }

  function TsEdge(e: ElementData): CyEdge {
    CyEdge(e.id, e.source, e.target, e.labelText, "")
  }

  /** Legacy: labels kept as they come, every node typed `node`. */
  function ApiNode(e: ElementData): CyNode {
    CyNode(e.id, e.labelText, ["node"])
  }

  function ApiEdge(e: ElementData): CyEdge {
    CyEdge(e.id, e.source, e.target, e.labelText, "edge")
  }

  /** Both front-ends draw one node per distinct id, in order of first appearance. */
  lemma NodeIdsUnique(elements: seq<ElementData>, mkNode: ElementData -> CyNode, nodes: seq<CyNode>)
    requires forall e :: mkNode(e).id == e.id
    requires nodes == ValuesOf(NodePairs(elements, mkNode))
    ensures Map(nodes, CyNodeId) == Unique(NodeIds(elements))
    ensures NoDup(Map(nodes, CyNodeId))
  {
    TransformElementsSpec(elements, mkNode, TsEdge, nodes, Map(Filter(elements, IsEdge), TsEdge));
    var ids := Unique(NodeIds(elements));
    var mapped := Map(nodes, CyNodeId);
    forall i | 0 <= i < |nodes| ensures mapped[i] == ids[i] {
      var e :| e in elements && IsNode(e) && e.id == ids[i] && nodes[i] == mkNode(e);
    }
    assert mapped == ids;
  }

  /**
   * `transformGraphElements` of the Next.js front-end; `None` is a response
   * without `elements`.
   */
  method TransformGraphElementsTs(response: Option<seq<ElementData>>) returns (nodes: seq<CyNode>, edges: seq<CyEdge>)
    ensures nodes == ValuesOf(NodePairs(response.GetOr([]), TsNode))
    ensures Map(nodes, CyNodeId) == Unique(NodeIds(response.GetOr([])))
    ensures forall i :: 0 <= i < |nodes| ==> nodes[i].labelText != ""
    ensures edges == Map(Filter(response.GetOr([]), IsEdge), TsEdge)
    ensures response.None? ==> nodes == [] && edges == []
  {
    var elements := response.GetOr([]);
    nodes, edges := TransformElements(elements, TsNode, TsEdge);
    NodeIdsUnique(elements, TsNode, nodes);
    TsNodesLabelled(elements, nodes);
  }

  /** Every node the Next.js front-end draws has a non-empty label. */
  lemma TsNodesLabelled(elements: seq<ElementData>, nodes: seq<CyNode>)
    requires nodes == ValuesOf(NodePairs(elements, TsNode))
    ensures forall i :: 0 <= i < |nodes| ==> nodes[i].labelText != ""
  {
    TransformElementsSpec(elements, TsNode, TsEdge, nodes, Map(Filter(elements, IsEdge), TsEdge));
    forall i | 0 <= i < |nodes| ensures nodes[i].labelText != "" {
      var e :| e in elements && IsNode(e) && e.id == Unique(NodeIds(elements))[i] && nodes[i] == TsNode(e);
    }
  }

  /** `transformers.transformGraphElements` of the legacy front-end. */
  method TransformGraphElementsJs(response: Option<seq<ElementData>>) returns (nodes: seq<CyNode>, edges: seq<CyEdge>)
    ensures nodes == ValuesOf(NodePairs(response.GetOr([]), ApiNode))
    ensures Map(nodes, CyNodeId) == Unique(NodeIds(response.GetOr([])))
    ensures forall i :: 0 <= i < |nodes| ==> nodes[i].types == ["node"]
    ensures edges == Map(Filter(response.GetOr([]), IsEdge), ApiEdge)
    ensures forall i :: 0 <= i < |edges| ==> edges[i].kind == "edge" && edges[i].source != "" && edges[i].target != ""
  {
    var elements := response.GetOr([]);
    nodes, edges := TransformElements(elements, ApiNode, ApiEdge);
    NodeIdsUnique(elements, ApiNode, nodes);
    ApiNodesTyped(elements, nodes);
    ApiEdgesTyped(elements, edges);
  }

  /** Every node the legacy front-end draws is typed `node`. */
  lemma ApiNodesTyped(elements: seq<ElementData>, nodes: seq<CyNode>)
    requires nodes == ValuesOf(NodePairs(elements, ApiNode))
    ensures forall i :: 0 <= i < |nodes| ==> nodes[i].types == ["node"]
  {
    TransformElementsSpec(elements, ApiNode, ApiEdge, nodes, Map(Filter(elements, IsEdge), ApiEdge));
    forall i | 0 <= i < |nodes| ensures nodes[i].types == ["node"] {
      var e :| e in elements && IsNode(e) && e.id == Unique(NodeIds(elements))[i] && nodes[i] == ApiNode(e);
    }
  }

  /** Every edge the legacy front-end draws is of kind `edge` and joins two named ends. */
  lemma ApiEdgesTyped(elements: seq<ElementData>, edges: seq<CyEdge>)
    requires edges == Map(Filter(elements, IsEdge), ApiEdge)
    ensures forall i :: 0 <= i < |edges| ==> edges[i].kind == "edge" && edges[i].source != "" && edges[i].target != ""
  {
    FilterSpec(elements, IsEdge);
    forall i | 0 <= i < |edges| ensures edges[i].kind == "edge" && edges[i].source != "" && edges[i].target != "" {
      assert Filter(elements, IsEdge)[i] in Filter(elements, IsEdge);
    }
  }

  // ---------------------------------------------------------------------------
  // Node types from labels
  // ---------------------------------------------------------------------------

  /** The node types, each its own keyword, in the order the label is tried against them. */
  const NodeTypes: seq<string> := [
    "Equipment", "Sensor", "Variable", "Unit", "Process", "Operation", "Material",
    "Product", "Area", "WorkOrder", "QualityControl", "Maintenance", "Batch", "Defect"
  ]

  const UnknownType: string := "Unknown"

  /** The position of the first keyword `text` contains, or `|keys|` when none is. */
  function FirstContained(text: string, keys: seq<string>): (r: nat)
    ensures r <= |keys|
    ensures r < |keys| ==> Contains(text, keys[r])
    ensures forall j :: 0 <= j < r ==> !Contains(text, keys[j])
  {
    if keys == [] then 0
    else if Contains(text, keys[0]) then 0
    else 1 + FirstContained(text, keys[1..])
  }

  /** `extractNodeType` / `getNodeTypeFromLabel` */
  function ExtractNodeType(text: string): string {
    if text == "" then UnknownType
    else
      var k := FirstContained(text, NodeTypes);
      if k < |NodeTypes| then NodeTypes[k] else UnknownType
  }

  /**
   * The type read from a text is the first node type, in table order, that
   * occurs in it; a text that is empty or mentions none of them is `Unknown`.
   */
  lemma ExtractNodeTypeSpec(text: string)
    ensures ExtractNodeType(text) == UnknownType || ExtractNodeType(text) in NodeTypes
    ensures ExtractNodeType(text) == UnknownType <==>
      text == "" || forall j :: 0 <= j < |NodeTypes| ==> !Contains(text, NodeTypes[j])
    ensures forall k :: 0 <= k < |NodeTypes| && ExtractNodeType(text) == NodeTypes[k] ==>
      Contains(text, NodeTypes[k]) && forall j :: 0 <= j < k ==> !Contains(text, NodeTypes[j])
  {
    assert UnknownType !in NodeTypes by {
      forall j | 0 <= j < |NodeTypes| ensures NodeTypes[j] != UnknownType {
        assert |NodeTypes[j]| != |UnknownType| || NodeTypes[j][0] != UnknownType[0];
      }
    }
    if text != "" {
      var k := FirstContained(text, NodeTypes);
      forall k' | 0 <= k' < |NodeTypes| && ExtractNodeType(text) == NodeTypes[k']
        ensures k' == k
      {
        NodeTypesDistinct(k, k');
      }
    }
  }

  lemma NodeTypesDistinct(i: int, j: int)
    requires 0 <= i < |NodeTypes| && 0 <= j < |NodeTypes|
    ensures NodeTypes[i] == NodeTypes[j] ==> i == j
  {
    if i != j {
      assert |NodeTypes[i]| != |NodeTypes[j]| || NodeTypes[i][0] != NodeTypes[j][0] || NodeTypes[i][3] != NodeTypes[j][3];
    }
  }
}
