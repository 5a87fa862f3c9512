/**
 * The radial MES ontology graph of the analysis platform: a root node, one
 * node per non-empty category, one node per function and one per result
 * template, with the edges between them. Node coordinates come from
 * trigonometry and are not modelled; which nodes and edges exist, their
 * ids, labels and highlighting are.
 */
module OntologyGraph {
  import opened Wrappers
  import opened Seqs
  import opened MesTypes
  import opened JsUtils

  // ---------------------------------------------------------------------------
  // Handle positions
  // ---------------------------------------------------------------------------

  datatype Position = Top | Bottom | Left | Right

  /** `oppositePosition`: top and bottom swap, left and right swap. */
  function Opposite(p: Position): Position {
    match p
    case Top => Bottom
    case Bottom => Top
    case Left => Right
    case Right => Left
  }

  /** Taking the opposite twice gives the position back, and no position is its own opposite. */
  lemma OppositeInvolution(p: Position)
    ensures Opposite(Opposite(p)) == p
    ensures Opposite(p) != p
  {
  }

  /**
   * `angleToPosition`, on the angle already converted to degrees: the
   * quarter of the circle the direction falls in picks the handle.
   */
  function AngleToPosition(deg: real): Position {
    if -135.0 <= deg < -45.0 then Top
    else if -45.0 <= deg < 45.0 then Left
    else if 45.0 <= deg < 135.0 then Bottom
    else Right
  }

  /**
   * For directions as `atan2` returns them, turning half a circle gives
   * the opposite handle; each handle covers a quarter turn.
   */
  lemma AngleToPositionHalfTurn(deg: real)
    requires -180.0 < deg <= 0.0
    ensures AngleToPosition(deg + 180.0) == Opposite(AngleToPosition(deg))
  {
  }

  lemma AngleToPositionQuarters(deg: real)
    ensures AngleToPosition(deg) == Top <==> -135.0 <= deg < -45.0
    ensures AngleToPosition(deg) == Left <==> -45.0 <= deg < 45.0
    ensures AngleToPosition(deg) == Bottom <==> 45.0 <= deg < 135.0
    ensures AngleToPosition(deg) == Right <==> deg < -135.0 || 135.0 <= deg
  {
  }

  // ---------------------------------------------------------------------------
  // Grouping
  // ---------------------------------------------------------------------------

  /** The order in which categories are placed around the root, starting at the top. */
  const CategoryOrder: seq<Category> := [Tracking, Quality, Maintenance, Inventory, Production]

  function CategoryOf(f: MesFunction): Category { f.category }

  /** `groupByCategory`: the functions filed under their category, in input order. */
  method GroupByCategory(ontology: seq<MesFunction>) returns (byCategory: map<Category, seq<MesFunction>>)
    ensures byCategory == Groups(ontology, CategoryOf)
  {
    byCategory := GroupBy(ontology, CategoryOf);
  }

  /** The group of a category, empty when no function has it. */
  function Group(groups: map<Category, seq<MesFunction>>, c: Category): seq<MesFunction> {
    if c in groups then groups[c] else []
  }

  /**
   * Each function lands in the group of its own category and in no other,
   * and each group keeps the input order.
   */
  lemma GroupByCategorySpec(ontology: seq<MesFunction>, c: Category)
    ensures Group(Groups(ontology, CategoryOf), c) == Filter(ontology, KeyEquals(CategoryOf, c))
    ensures forall f :: f in Group(Groups(ontology, CategoryOf), c) <==> f in ontology && f.category == c
  {
    GroupsSpec(ontology, CategoryOf);
    var groups := Groups(ontology, CategoryOf);
    if c !in groups {
      FilterNone(ontology, KeyEquals(CategoryOf, c));
    }
    FilterSpec(ontology, KeyEquals(CategoryOf, c));
  }

  /** Every category has its place in the order, so no function is left off the graph. */
  lemma EveryCategoryPlaced(c: Category)
    ensures c in CategoryOrder
  {
  }

  // ---------------------------------------------------------------------------
  // Elements
  // ---------------------------------------------------------------------------

  datatype NodeKind = RootKind | CategoryKind | FunctionKind | TemplateKind

  datatype FlowNode = FlowNode(id: string, kind: NodeKind, labelText: string, highlighted: bool)

  datatype FlowEdge = FlowEdge(id: string, source: string, target: string, dashed: bool)

  /** A result tab of the analysis, with the functions it draws on. */
  datatype ResultTemplate = ResultTemplate(id: string, name: string, recommendedFunctionIds: seq<string>)

  const RootId := "mes-root"

  const RootNode := FlowNode(RootId, RootKind, "Standard MES", false)

  function CategoryId(c: Category): string { "cat-" + CategoryName(c) }

  predicate NonEmpty(groups: map<Category, seq<MesFunction>>, c: Category) {
    Group(groups, c) != []
  }

  function HasFunctions(groups: map<Category, seq<MesFunction>>): Category -> bool {
    (c: Category) => NonEmpty(groups, c)
  }

  function CategoryNode(c: Category): FlowNode {
    FlowNode(CategoryId(c), CategoryKind, CategoryName(c), false)
  }

  function CategoryEdge(c: Category): FlowEdge {
    FlowEdge("e-" + RootId + "-" + CategoryId(c), RootId, CategoryId(c), false)
  }

  /** A function node, highlighted exactly when its id is among the given ids. */
  function FunctionNode(highlightedIds: Option<seq<string>>): MesFunction -> FlowNode {
    (f: MesFunction) => FlowNode(f.id, FunctionKind, f.name, highlightedIds.Some? && f.id in highlightedIds.value)
  }

  function FunctionEdge(c: Category): MesFunction -> FlowEdge {
    (f: MesFunction) => FlowEdge("e-" + CategoryId(c) + "-" + f.id, CategoryId(c), f.id, false)
  }

  function TemplateId(t: ResultTemplate): string { "template-" + t.id }

  function TemplateNode(t: ResultTemplate): FlowNode {
    FlowNode(TemplateId(t), TemplateKind, t.name, false)
  }

  /** The dashed edges from a template to each function it recommends. */
  function TemplateEdges(t: ResultTemplate): seq<FlowEdge> {
    Map(t.recommendedFunctionIds, (fid: string) => FlowEdge("e-" + TemplateId(t) + "-" + fid, TemplateId(t), fid, true))
  }

  /** The function nodes of one category. */
  function FunctionNodesOf(groups: map<Category, seq<MesFunction>>, highlightedIds: Option<seq<string>>): Category -> seq<FlowNode> {
    (c: Category) => Map(Group(groups, c), FunctionNode(highlightedIds))
  }

  function FunctionEdgesOf(groups: map<Category, seq<MesFunction>>): Category -> seq<FlowEdge> {
    (c: Category) => Map(Group(groups, c), FunctionEdge(c))
  }

  /** A missing or empty template list draws no templates. */
  function TemplateList(templates: Option<seq<ResultTemplate>>): seq<ResultTemplate> {
    if templates.Some? then templates.value else []
  }

  /** The nodes of the graph: root, categories (in the order `cats`), functions, templates. */
  function GraphNodes(cats: seq<Category>, ontology: seq<MesFunction>, highlightedIds: Option<seq<string>>, templates: Option<seq<ResultTemplate>>): seq<FlowNode> {
    var groups := Groups(ontology, CategoryOf);
    [RootNode]
    + Map(Filter(cats, HasFunctions(groups)), CategoryNode)
    + Concat(Map(cats, FunctionNodesOf(groups, highlightedIds)))
    + Map(TemplateList(templates), TemplateNode)
  }

  /** The edges of the graph: root to category, category to function, template to function. */
  function GraphEdges(cats: seq<Category>, ontology: seq<MesFunction>, templates: Option<seq<ResultTemplate>>): seq<FlowEdge> {
    var groups := Groups(ontology, CategoryOf);
    Map(Filter(cats, HasFunctions(groups)), CategoryEdge)
    + Concat(Map(cats, FunctionEdgesOf(groups)))
    + Concat(Map(TemplateList(templates), TemplateEdges))
  }

  // ---------------------------------------------------------------------------
  // buildGraphElements
  // ---------------------------------------------------------------------------

  /** `buildGraphElements`: the elements pushed ring by ring. */
  method BuildGraphElements(ontology: seq<MesFunction>, highlightedIds: Option<seq<string>>, templates: Option<seq<ResultTemplate>>)
    returns (nodes: seq<FlowNode>, edges: seq<FlowEdge>)
    ensures nodes == GraphNodes(CategoryOrder, ontology, highlightedIds, templates)
    ensures edges == GraphEdges(CategoryOrder, ontology, templates)
  {
    var byCategory := GroupByCategory(ontology);
    nodes := [RootNode];
    edges := [];
    nodes, edges := AddCategories(CategoryOrder, byCategory, nodes, edges);
    ghost var n1, e1 := nodes, edges;
    nodes, edges := AddFunctions(CategoryOrder, byCategory, highlightedIds, nodes, edges);
    ghost var n2, e2 := nodes, edges;
    nodes, edges := AddTemplates(TemplateList(templates), nodes, edges);
    NodesAssembled(CategoryOrder, byCategory, highlightedIds, TemplateList(templates), n1, n2, nodes);
    EdgesAssembled(CategoryOrder, byCategory, TemplateList(templates), e1, e2, edges);
  }

  /** The three rings of nodes pushed in turn after the root make up the graph's nodes. */
  lemma NodesAssembled(cats: seq<Category>, groups: map<Category, seq<MesFunction>>, highlightedIds: Option<seq<string>>,
                       templates: seq<ResultTemplate>, n1: seq<FlowNode>, n2: seq<FlowNode>, n3: seq<FlowNode>)
    requires n1 == [RootNode] + Map(Filter(cats, HasFunctions(groups)), CategoryNode)
    requires n2 == n1 + Concat(Map(cats, FunctionNodesOf(groups, highlightedIds)))
    requires n3 == n2 + Map(templates, TemplateNode)
    ensures forall ontology, ts :: groups == Groups(ontology, CategoryOf) && templates == TemplateList(ts) ==>
      n3 == GraphNodes(cats, ontology, highlightedIds, ts)
  {
  }

  /** The three rings of edges pushed in turn make up the graph's edges. */
  lemma EdgesAssembled(cats: seq<Category>, groups: map<Category, seq<MesFunction>>,
                       templates: seq<ResultTemplate>, e1: seq<FlowEdge>, e2: seq<FlowEdge>, e3: seq<FlowEdge>)
    requires e1 == [] + Map(Filter(cats, HasFunctions(groups)), CategoryEdge)
    requires e2 == e1 + Concat(Map(cats, FunctionEdgesOf(groups)))
    requires e3 == e2 + Concat(Map(templates, TemplateEdges))
    ensures forall ontology, ts :: groups == Groups(ontology, CategoryOf) && templates == TemplateList(ts) ==>
      e3 == GraphEdges(cats, ontology, ts)
  {
    assert [] + Map(Filter(cats, HasFunctions(groups)), CategoryEdge) == Map(Filter(cats, HasFunctions(groups)), CategoryEdge);
  }

  /** The first ring: a node and a root edge for each category that has functions. */
  method AddCategories(cats: seq<Category>, groups: map<Category, seq<MesFunction>>, nodes0: seq<FlowNode>, edges0: seq<FlowEdge>)
    returns (nodes: seq<FlowNode>, edges: seq<FlowEdge>)
    ensures nodes == nodes0 + Map(Filter(cats, HasFunctions(groups)), CategoryNode)
    ensures edges == edges0 + Map(Filter(cats, HasFunctions(groups)), CategoryEdge)
  {
    nodes, edges := nodes0, edges0;
    for i := 0 to |cats|
      invariant nodes == nodes0 + Map(Filter(cats[..i], HasFunctions(groups)), CategoryNode)
      invariant edges == edges0 + Map(Filter(cats[..i], HasFunctions(groups)), CategoryEdge)
    {
      var c := cats[i];
      CategoryRingStep(cats, i, groups);
      if Group(groups, c) != [] {
        nodes := nodes + [CategoryNode(c)];
        edges := edges + [CategoryEdge(c)];
      }
    }
    assert cats[..|cats|] == cats;
  }

  /** One more category grows the first ring by its node and edge when it has functions. */
  lemma CategoryRingStep(cats: seq<Category>, i: nat, groups: map<Category, seq<MesFunction>>)
    requires i < |cats|
    ensures Map(Filter(cats[..i + 1], HasFunctions(groups)), CategoryNode)
         == Map(Filter(cats[..i], HasFunctions(groups)), CategoryNode) + (if Group(groups, cats[i]) != [] then [CategoryNode(cats[i])] else [])
    ensures Map(Filter(cats[..i + 1], HasFunctions(groups)), CategoryEdge)
         == Map(Filter(cats[..i], HasFunctions(groups)), CategoryEdge) + (if Group(groups, cats[i]) != [] then [CategoryEdge(cats[i])] else [])
  {
    var shown := Filter(cats[..i], HasFunctions(groups));
    var extra := if Group(groups, cats[i]) != [] then [cats[i]] else [];
    FilterPrefixStep(cats, i, HasFunctions(groups));
    MapAppend(shown, extra, CategoryNode);
    MapAppend(shown, extra, CategoryEdge);
  }

  /** The second ring: a node and a category edge for each function, category by category. */
  method AddFunctions(cats: seq<Category>, groups: map<Category, seq<MesFunction>>, highlightedIds: Option<seq<string>>,
                      nodes0: seq<FlowNode>, edges0: seq<FlowEdge>)
    returns (nodes: seq<FlowNode>, edges: seq<FlowEdge>)
    ensures nodes == nodes0 + Concat(Map(cats, FunctionNodesOf(groups, highlightedIds)))
    ensures edges == edges0 + Concat(Map(cats, FunctionEdgesOf(groups)))
  {
    ghost var ofNodes, ofEdges := FunctionNodesOf(groups, highlightedIds), FunctionEdgesOf(groups);
    nodes, edges := nodes0, edges0;
    for i := 0 to |cats|
      invariant nodes == nodes0 + Concat(Map(cats[..i], ofNodes))
      invariant edges == edges0 + Concat(Map(cats[..i], ofEdges))
    {
      var c := cats[i];
      ConcatPrefixStep(cats, i, ofNodes, nodes0, nodes);
      ConcatPrefixStep(cats, i, ofEdges, edges0, edges);
      assert ofNodes(c) == Map(Group(groups, c), FunctionNode(highlightedIds));
      assert ofEdges(c) == Map(Group(groups, c), FunctionEdge(c));
      nodes, edges := AppendFunctions(Group(groups, c), c, highlightedIds, nodes, edges);
    }
    assert cats[..|cats|] == cats;
  }

  /** The third ring: a node per template and a dashed edge per function it recommends. */
  method AddTemplates(templates: seq<ResultTemplate>, nodes0: seq<FlowNode>, edges0: seq<FlowEdge>)
    returns (nodes: seq<FlowNode>, edges: seq<FlowEdge>)
    ensures nodes == nodes0 + Map(templates, TemplateNode)
    ensures edges == edges0 + Concat(Map(templates, TemplateEdges))
  {
    nodes, edges := nodes0, edges0;
    for i := 0 to |templates|
      invariant nodes == nodes0 + Map(templates[..i], TemplateNode)
      invariant edges == edges0 + Concat(Map(templates[..i], TemplateEdges))
    {
      var t := templates[i];
      MapPrefixStep(templates, i, TemplateNode, nodes0, nodes);
      ConcatPrefixStep(templates, i, TemplateEdges, edges0, edges);
      nodes := nodes + [TemplateNode(t)];
      edges := AppendTemplateEdges(t, edges);
    }
    assert templates[..|templates|] == templates;
  }

  /** The function nodes of one category, each with its edge from the category node. */
  method AppendFunctions(list: seq<MesFunction>, c: Category, highlightedIds: Option<seq<string>>,
                         nodes0: seq<FlowNode>, edges0: seq<FlowEdge>)
    returns (nodes: seq<FlowNode>, edges: seq<FlowEdge>)
    ensures nodes == nodes0 + Map(list, FunctionNode(highlightedIds))
    ensures edges == edges0 + Map(list, FunctionEdge(c))
  {
    nodes, edges := nodes0, edges0;
    for j := 0 to |list|
      invariant nodes == nodes0 + Map(list[..j], FunctionNode(highlightedIds))
      invariant edges == edges0 + Map(list[..j], FunctionEdge(c))
    {
      MapAppend(list[..j], [list[j]], FunctionNode(highlightedIds));
      MapAppend(list[..j], [list[j]], FunctionEdge(c));
      assert list[..j + 1] == list[..j] + [list[j]];
      var f := list[j];
      nodes := nodes + [FlowNode(f.id, FunctionKind, f.name, highlightedIds.Some? && f.id in highlightedIds.value)];
      edges := edges + [FlowEdge("e-" + CategoryId(c) + "-" + f.id, CategoryId(c), f.id, false)];
    }
    assert list[..|list|] == list;
  }

  /** The dashed edges of one template, one per recommended function id. */
  method AppendTemplateEdges(t: ResultTemplate, edges0: seq<FlowEdge>) returns (edges: seq<FlowEdge>)
    ensures edges == edges0 + TemplateEdges(t)
  {
    edges := edges0;
    for j := 0 to |t.recommendedFunctionIds|
      invariant edges == edges0 + TemplateEdges(t)[..j]
    {
      assert TemplateEdges(t)[..j + 1] == TemplateEdges(t)[..j] + [TemplateEdges(t)[j]];
      var fid := t.recommendedFunctionIds[j];
      edges := edges + [FlowEdge("e-" + TemplateId(t) + "-" + fid, TemplateId(t), fid, true)];
    }
    assert TemplateEdges(t)[..|TemplateEdges(t)|] == TemplateEdges(t);
  }

  /** One more element of `xs` appends its image to the running map. */
  lemma MapPrefixStep<T, U>(xs: seq<T>, i: int, f: T -> U, acc0: seq<U>, acc: seq<U>)
    requires 0 <= i < |xs| && acc == acc0 + Map(xs[..i], f)
    ensures acc + [f(xs[i])] == acc0 + Map(xs[..i + 1], f)
  {
    assert xs[..i + 1] == xs[..i] + [xs[i]];
    MapAppend(xs[..i], [xs[i]], f);
  }

  /** One more element of `xs` appends its chunk to the running concatenation. */
  lemma ConcatPrefixStep<T, U>(xs: seq<T>, i: int, f: T -> seq<U>, acc0: seq<U>, acc: seq<U>)
    requires 0 <= i < |xs| && acc == acc0 + Concat(Map(xs[..i], f))
    ensures acc + f(xs[i]) == acc0 + Concat(Map(xs[..i + 1], f))
  {
    assert xs[..i + 1] == xs[..i] + [xs[i]];
    ConcatMapSnoc(xs[..i], xs[i], f);
  }

  lemma ConcatMapSnoc<T, U>(xs: seq<T>, x: T, f: T -> seq<U>)
    ensures Concat(Map(xs + [x], f)) == Concat(Map(xs, f)) + f(x)
  {
    MapAppend(xs, [x], f);
    assert Map([x], f) == [f(x)];
    ConcatSnoc(Map(xs, f), f(x));
  }

  lemma ConcatSnoc<T>(chunks: seq<seq<T>>, c: seq<T>)
    ensures Concat(chunks + [c]) == Concat(chunks) + c
  {
    assert (chunks + [c])[..|chunks|] == chunks;
  }

  // ---------------------------------------------------------------------------
  // Structure of the graph
  // ---------------------------------------------------------------------------

  lemma {:induction false} InConcat<T>(chunks: seq<seq<T>>, x: T)
    ensures x in Concat(chunks) <==> exists k :: 0 <= k < |chunks| && x in chunks[k]
  {
    if chunks != [] {
      var init := chunks[..|chunks| - 1];
      InConcat(init, x);
      if exists k :: 0 <= k < |chunks| && x in chunks[k] {
        var k :| 0 <= k < |chunks| && x in chunks[k];
        if k < |init| {
          assert init[k] == chunks[k];
        }
      }
      if exists k :: 0 <= k < |init| && x in init[k] {
        var k :| 0 <= k < |init| && x in init[k];
        assert chunks[k] == init[k];
      }
    }
  }

  /** The kinds of all nodes in a concatenation of per-category function node lists. */
  lemma {:induction false} FunctionNodesKind(cats: seq<Category>, groups: map<Category, seq<MesFunction>>, highlightedIds: Option<seq<string>>)
    ensures forall n :: n in Concat(Map(cats, FunctionNodesOf(groups, highlightedIds))) ==> n.kind == FunctionKind
  {
    forall n | n in Concat(Map(cats, FunctionNodesOf(groups, highlightedIds))) ensures n.kind == FunctionKind {
      InConcat(Map(cats, FunctionNodesOf(groups, highlightedIds)), n);
    }
  }

  predicate IsRoot(n: FlowNode) { n.kind == RootKind }

  function RootTest(): FlowNode -> bool { (n: FlowNode) => IsRoot(n) }

  /** The graph has exactly one root node, and it comes first. */
  lemma OneRoot(cats: seq<Category>, ontology: seq<MesFunction>, highlightedIds: Option<seq<string>>, templates: Option<seq<ResultTemplate>>)
    ensures var nodes := GraphNodes(cats, ontology, highlightedIds, templates);
      nodes[0] == RootNode && Count(nodes, RootTest()) == 1
  {
    var groups := Groups(ontology, CategoryOf);
    var catNodes := Map(Filter(cats, HasFunctions(groups)), CategoryNode);
    var fnNodes := Concat(Map(cats, FunctionNodesOf(groups, highlightedIds)));
    var tplNodes := Map(TemplateList(templates), TemplateNode);
    var rest := catNodes + fnNodes + tplNodes;
    RootInFront(catNodes, fnNodes, tplNodes);
    CategoryNodesKind(Filter(cats, HasFunctions(groups)));
    FunctionNodesKind(cats, groups, highlightedIds);
    TemplateNodesKind(TemplateList(templates));
    assert forall n :: n in rest ==> n in catNodes || n in fnNodes || n in tplNodes;
    RootOnlyOnce(rest);
  }

  /** The root node followed by three lists is the root followed by their concatenation. */
  lemma RootInFront(a: seq<FlowNode>, b: seq<FlowNode>, c: seq<FlowNode>)
    ensures [RootNode] + a + b + c == [RootNode] + (a + b + c)
  {
    assert [RootNode] + a + b + c == [RootNode] + (a + b) + c;
  }

  lemma CategoryNodesKind(shown: seq<Category>)
    ensures forall x :: x in Map(shown, CategoryNode) ==> x.kind == CategoryKind
  {
    forall x | x in Map(shown, CategoryNode) ensures x.kind == CategoryKind {
      var j :| 0 <= j < |shown| && Map(shown, CategoryNode)[j] == x;
    }
  }

  /** The root followed by non-root nodes holds one root. */
  lemma RootOnlyOnce(rest: seq<FlowNode>)
    requires forall n :: n in rest ==> !IsRoot(n)
    ensures Count([RootNode] + rest, RootTest()) == 1
  {
    FilterAppend([RootNode], rest, RootTest());
    FilterNone(rest, RootTest());
    assert Filter([RootNode], RootTest()) == [RootNode] by {
      assert [RootNode][..0] == [];
    }
  }

  /** A category has a node exactly when it is placed and some function has that category. */
  lemma CategoryNodeIff(cats: seq<Category>, ontology: seq<MesFunction>, highlightedIds: Option<seq<string>>, templates: Option<seq<ResultTemplate>>, c: Category)
    ensures CategoryNode(c) in GraphNodes(cats, ontology, highlightedIds, templates) <==> c in cats && exists f :: f in ontology && f.category == c
  {
    var groups := Groups(ontology, CategoryOf);
    var shown := Filter(cats, HasFunctions(groups));
    var catNodes := Map(shown, CategoryNode);
    var fnNodes := Concat(Map(cats, FunctionNodesOf(groups, highlightedIds)));
    var tplNodes := Map(TemplateList(templates), TemplateNode);
    assert GraphNodes(cats, ontology, highlightedIds, templates) == [RootNode] + catNodes + fnNodes + tplNodes;
    FunctionNodesKind(cats, groups, highlightedIds);
    TemplateNodesKind(TemplateList(templates));
    CategoryRing(cats, groups, ontology, c, shown, catNodes);
  }

  /** A category has an edge from the root exactly when it is placed and some function has that category. */
  lemma CategoryEdgeIff(cats: seq<Category>, ontology: seq<MesFunction>, templates: Option<seq<ResultTemplate>>, c: Category)
    ensures CategoryEdge(c) in GraphEdges(cats, ontology, templates) <==> c in cats && exists f :: f in ontology && f.category == c
  {
    var groups := Groups(ontology, CategoryOf);
    var shown := Filter(cats, HasFunctions(groups));
    var catEdges := Map(shown, CategoryEdge);
    assert GraphEdges(cats, ontology, templates) == catEdges + Concat(Map(cats, FunctionEdgesOf(groups))) + Concat(Map(TemplateList(templates), TemplateEdges));
    CategoryRing(cats, groups, ontology, c, shown, Map(shown, CategoryNode));
    FunctionEdgeSources(cats, groups);
    TemplateEdgesDashed(TemplateList(templates));
    OnlyRootEdgeInRing(c, shown, Concat(Map(cats, FunctionEdgesOf(groups))), Concat(Map(TemplateList(templates), TemplateEdges)));
  }

  /** The root edge of a category is found in the first ring or not at all. */
  lemma OnlyRootEdgeInRing(c: Category, shown: seq<Category>, fnEdges: seq<FlowEdge>, tplEdges: seq<FlowEdge>)
    requires forall e :: e in fnEdges ==> e.source != RootId
    requires forall e :: e in tplEdges ==> e.dashed
    ensures CategoryEdge(c) in Map(shown, CategoryEdge) + fnEdges + tplEdges <==> c in shown
  {
    CategoryEdgeInMap(c, shown);
    assert CategoryEdge(c).source == RootId && !CategoryEdge(c).dashed;
    assert CategoryEdge(c) !in fnEdges && CategoryEdge(c) !in tplEdges;
  }

  /** A category's root edge is in the ring built from `shown` exactly when the category is. */
  lemma CategoryEdgeInMap(c: Category, shown: seq<Category>)
    ensures CategoryEdge(c) in Map(shown, CategoryEdge) <==> c in shown
  {
    var catEdges := Map(shown, CategoryEdge);
    if CategoryEdge(c) in catEdges {
      var k :| 0 <= k < |shown| && catEdges[k] == CategoryEdge(c);
      CategoryNameInjective(shown[k], c);
    }
    if c in shown {
      var k :| 0 <= k < |shown| && shown[k] == c;
      assert catEdges[k] == CategoryEdge(c);
    }
  }

  lemma TemplateEdgesDashed(templates: seq<ResultTemplate>)
    ensures forall e :: e in Concat(Map(templates, TemplateEdges)) ==> e.dashed
  {
    TemplateEdgesSpec(templates);
  }

  /** The category ring shows a category exactly when it is placed and has a function. */
  lemma CategoryRing(cats: seq<Category>, groups: map<Category, seq<MesFunction>>, ontology: seq<MesFunction>, c: Category,
                     shown: seq<Category>, catNodes: seq<FlowNode>)
    requires groups == Groups(ontology, CategoryOf) && shown == Filter(cats, HasFunctions(groups))
    requires catNodes == Map(shown, CategoryNode)
    ensures c in shown <==> c in cats && exists f :: f in ontology && f.category == c
    ensures CategoryNode(c) in catNodes <==> c in shown
  {
    CategoryShown(cats, groups, ontology, c);
    CategoryNodeInMap(c, shown);
  }

  /** A category passes the filter exactly when it is placed and some function belongs to it. */
  lemma CategoryShown(cats: seq<Category>, groups: map<Category, seq<MesFunction>>, ontology: seq<MesFunction>, c: Category)
    requires groups == Groups(ontology, CategoryOf)
    ensures c in Filter(cats, HasFunctions(groups)) <==> c in cats && exists f :: f in ontology && f.category == c
  {
    FilterSpec(cats, HasFunctions(groups));
    GroupByCategorySpec(ontology, c);
    if c in Filter(cats, HasFunctions(groups)) {
      assert Group(groups, c)[0] in Group(groups, c);
    }
    if exists f :: f in ontology && f.category == c {
      var f :| f in ontology && f.category == c;
      assert f in Group(groups, c);
    }
  }

  /** A category's node is in the ring built from `shown` exactly when the category is. */
  lemma CategoryNodeInMap(c: Category, shown: seq<Category>)
    ensures CategoryNode(c) in Map(shown, CategoryNode) <==> c in shown
  {
    var catNodes := Map(shown, CategoryNode);
    if CategoryNode(c) in catNodes {
      var k :| 0 <= k < |shown| && catNodes[k] == CategoryNode(c);
      CategoryNameInjective(shown[k], c);
    }
    if c in shown {
      var k :| 0 <= k < |shown| && shown[k] == c;
      assert catNodes[k] == CategoryNode(c);
    }
  }

  lemma TemplateNodesKind(templates: seq<ResultTemplate>)
    ensures forall x :: x in Map(templates, TemplateNode) ==> x.kind == TemplateKind
  {
    forall x | x in Map(templates, TemplateNode) ensures x.kind == TemplateKind {
      var j :| 0 <= j < |templates| && Map(templates, TemplateNode)[j] == x;
    }
  }

  /** Edges of the function ring leave category nodes, never the root. */
  lemma FunctionEdgeSources(cats: seq<Category>, groups: map<Category, seq<MesFunction>>)
    ensures forall e :: e in Concat(Map(cats, FunctionEdgesOf(groups))) ==> e.source != RootId
  {
    forall e | e in Concat(Map(cats, FunctionEdgesOf(groups))) ensures e.source != RootId {
      InConcat(Map(cats, FunctionEdgesOf(groups)), e);
      var k :| 0 <= k < |cats| && e in Map(cats, FunctionEdgesOf(groups))[k];
      var j :| 0 <= j < |Group(groups, cats[k])| && e == FunctionEdge(cats[k])(Group(groups, cats[k])[j]);
      assert e.source[0] == 'c';
    }
  }

  /**
   * Every function has a node, highlighted exactly when its id is listed,
   * and an edge from its category's node.
   */
  lemma FunctionElements(cats: seq<Category>, ontology: seq<MesFunction>, highlightedIds: Option<seq<string>>, templates: Option<seq<ResultTemplate>>, f: MesFunction)
    requires f in ontology && f.category in cats
    ensures FunctionNode(highlightedIds)(f) in GraphNodes(cats, ontology, highlightedIds, templates)
    ensures FunctionNode(highlightedIds)(f).highlighted <==> highlightedIds.Some? && f.id in highlightedIds.value
    ensures FunctionEdge(f.category)(f) in GraphEdges(cats, ontology, templates)
  {
    var groups := Groups(ontology, CategoryOf);
    GroupByCategorySpec(ontology, f.category);
    var list := Group(groups, f.category);
    var i :| 0 <= i < |list| && list[i] == f;
    var k :| 0 <= k < |cats| && cats[k] == f.category;
    FunctionNodeInRing(cats, groups, highlightedIds, k, i);
    FunctionEdgeInRing(cats, groups, k, i);
  }

  /** The `i`-th function of the `k`-th category has its node in the function ring. */
  lemma FunctionNodeInRing(cats: seq<Category>, groups: map<Category, seq<MesFunction>>, highlightedIds: Option<seq<string>>, k: nat, i: nat)
    requires k < |cats| && i < |Group(groups, cats[k])|
    ensures FunctionNode(highlightedIds)(Group(groups, cats[k])[i]) in Concat(Map(cats, FunctionNodesOf(groups, highlightedIds)))
  {
    var list := Group(groups, cats[k]);
    var chunks := Map(cats, FunctionNodesOf(groups, highlightedIds));
    assert chunks[k] == Map(list, FunctionNode(highlightedIds));
    assert chunks[k][i] == FunctionNode(highlightedIds)(list[i]);
    InConcat(chunks, FunctionNode(highlightedIds)(list[i]));
  }

  /** The `i`-th function of the `k`-th category has its edge in the function ring. */
  lemma FunctionEdgeInRing(cats: seq<Category>, groups: map<Category, seq<MesFunction>>, k: nat, i: nat)
    requires k < |cats| && i < |Group(groups, cats[k])|
    ensures FunctionEdge(cats[k])(Group(groups, cats[k])[i]) in Concat(Map(cats, FunctionEdgesOf(groups)))
  {
    var list := Group(groups, cats[k]);
    var chunks := Map(cats, FunctionEdgesOf(groups));
    assert chunks[k] == Map(list, FunctionEdge(cats[k]));
    assert chunks[k][i] == FunctionEdge(cats[k])(list[i]);
    InConcat(chunks, FunctionEdge(cats[k])(list[i]));
  }

  lemma CategoryNameInjective(a: Category, b: Category)
    ensures CategoryNode(a) == CategoryNode(b) ==> a == b
  {
    assert |CategoryName(a)| == |CategoryName(b)| ==> a == b;
  }

  /**
   * Each template gets one node, and as many dashed edges, all leaving it,
   * as it recommends functions.
   */
  lemma {:induction false} TemplateEdgesSpec(templates: seq<ResultTemplate>)
    ensures |Map(templates, TemplateNode)| == |templates|
    ensures |Concat(Map(templates, TemplateEdges))| == SumLengths(templates)
    ensures forall e :: e in Concat(Map(templates, TemplateEdges)) ==>
      e.dashed && exists t :: t in templates && e.source == TemplateId(t) && e.target in t.recommendedFunctionIds
  {
    if templates != [] {
      var init, t := templates[..|templates| - 1], templates[|templates| - 1];
      TemplateEdgesSpec(init);
      assert templates == init + [t];
      MapAppend(init, [t], TemplateEdges);
      ConcatSnoc(Map(init, TemplateEdges), TemplateEdges(t));
      forall e | e in TemplateEdges(t)
        ensures e.dashed && e.source == TemplateId(t) && e.target in t.recommendedFunctionIds
      {
        var j :| 0 <= j < |TemplateEdges(t)| && TemplateEdges(t)[j] == e;
        assert e.target == t.recommendedFunctionIds[j];
      }
    }
  }

  /** The total number of recommended function ids over the templates. */
  function SumLengths(templates: seq<ResultTemplate>): nat {
    if templates == [] then 0
    else SumLengths(templates[..|templates| - 1]) + |templates[|templates| - 1].recommendedFunctionIds|
  }
}
