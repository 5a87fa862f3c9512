/**
 * The backend's `/graph/elements` endpoint: the rows of a Cypher query over
 * `(n)-[r]->(m)` become Cytoscape elements, one node per distinct database
 * node and one edge per row.
 */
module BackendGraph {
  import opened Wrappers
  import opened Seqs
  import opened Strings
  import opened OrderedMaps
  import GraphElements
  import opened BackendDb

  /**
   * One row of the query: the database ids, labels and display labels of
   * both ends, and the relationship type. A missing display label is "".
   */
  datatype Row = Row(sid: int, sTypes: seq<string>, sLabel: string, rel: string, tid: int, tTypes: seq<string>, tLabel: string)

  /**
   * What the `try` block meets: the query's rows, the HTTPException
   * `neo4j_run` raises for a database failure, or some other exception
   * raised while the rows are turned into elements.
   */
  datatype QueryOutcome = Rows(rows: seq<Row>) | DbFailed(failure: DbFailure) | LoopRaised

  /** The endpoint's answer: the elements, or the HTTP error it passes on. */
  datatype Response = Elements(elements: seq<Element>) | HttpError(status: int, detail: string)

  datatype Element =
    | NodeElement(id: string, labelText: string, types: seq<string>)
    | EdgeElement(id: string, source: string, target: string, labelText: string)

  /** The element id of a database node: `n` followed by its id. */
  function NodeKey(dbId: int): (key: string)
    ensures |key| >= 2 && key[0] == 'n'
  {
    "n" + IntToString(dbId)
  }

  /** `label or "node"`. */
  function NodeLabel(given: string): (r: string)
    ensures r != ""
    ensures given != "" ==> r == given
  {
    if given != "" then given else "node"
  }

  function SourceNode(row: Row): Element {
    NodeElement(NodeKey(row.sid), NodeLabel(row.sLabel), row.sTypes)
  }

  function TargetNode(row: Row): Element {
    NodeElement(NodeKey(row.tid), NodeLabel(row.tLabel), row.tTypes)
  }

  /** `"{sid}->{tid}:{rel}"` */
  function EdgeId(row: Row): string {
    NodeKey(row.sid) + "->" + NodeKey(row.tid) + ":" + row.rel
  }

  function RowEdge(row: Row): Element {
    EdgeElement(EdgeId(row), NodeKey(row.sid), NodeKey(row.tid), row.rel)
  }

  /** The `(id, node)` writes into the node dictionary: the source, then the target of each row. */
  function NodeWrites(rows: seq<Row>): (w: seq<(string, Element)>)
    ensures |w| == 2 * |rows|
  {
    if rows == [] then []
    else
      var last := rows[|rows| - 1];
      NodeWrites(rows[..|rows| - 1]) + [(NodeKey(last.sid), SourceNode(last)), (NodeKey(last.tid), TargetNode(last))]
  }

  /** The elements for the rows: nothing for no rows, else all nodes, then all edges. */
  function ElementsOf(rows: seq<Row>): seq<Element> {
    if rows == [] then []
    else ValuesOf(NodeWrites(rows)) + Map(rows, RowEdge)
  }

  /**
   * The answer: a database failure is re-raised as `neo4j_run`'s
   * HTTPException, any other exception gives no elements.
   */
  function ResponseOf(outcome: QueryOutcome): Response {
    match outcome
    case Rows(rows) => Elements(ElementsOf(rows))
    case DbFailed(f) => HttpError(RunError(f).status, RunError(f).detail)
    case LoopRaised => Elements([])
  }

  /** `graph_elements`: one pass over the rows fills the node dictionary and the edge list. */
  method GraphElementsEndpoint(outcome: QueryOutcome) returns (response: Response)
    ensures response == ResponseOf(outcome)
  {
    if outcome.DbFailed? {
      var e := RunError(outcome.failure);
      return HttpError(e.status, e.detail);
    }
    if outcome.LoopRaised? || outcome.rows == [] {
      return Elements([]);
    }
    var nodes, edges := FillFromRows(outcome.rows);
    FromPairsSpec(NodeWrites(outcome.rows));
    response := Elements(Values(nodes) + edges);
  }

  /** The loop of `graph_elements`: per row, set both ends in the dictionary and append the edge. */
  method FillFromRows(rows: seq<Row>) returns (nodes: OrderedMap<string, Element>, edges: seq<Element>)
    ensures nodes == FromPairs(NodeWrites(rows))
    ensures edges == Map(rows, RowEdge)
  {
    nodes, edges := Empty(), [];
    for k := 0 to |rows|
      invariant nodes == FromPairs(NodeWrites(rows[..k]))
      invariant edges == Map(rows[..k], RowEdge)
    {
      var row := rows[k];
      WritesStep(rows, k);
      MapSnoc(rows, k, RowEdge);
      nodes := Put(nodes, NodeKey(row.sid), SourceNode(row));
      nodes := Put(nodes, NodeKey(row.tid), TargetNode(row));
      edges := edges + [RowEdge(row)];
    }
    assert rows[..|rows|] == rows;
  }

  lemma MapSnoc<T, U>(s: seq<T>, k: int, f: T -> U)
    requires 0 <= k < |s|
    ensures Map(s[..k + 1], f) == Map(s[..k], f) + [f(s[k])]
  {
    assert s[..k + 1] == s[..k] + [s[k]];
    MapAppend(s[..k], [s[k]], f);
  }

  /** Filling the dictionary with one more row's writes sets the source, then the target. */
  lemma WritesStep(rows: seq<Row>, k: int)
    requires 0 <= k < |rows|
    ensures FromPairs(NodeWrites(rows[..k + 1]))
         == Put(Put(FromPairs(NodeWrites(rows[..k])), NodeKey(rows[k].sid), SourceNode(rows[k])), NodeKey(rows[k].tid), TargetNode(rows[k]))
  {
    var row := rows[k];
    assert rows[..k + 1][..k] == rows[..k];
    var w0 := NodeWrites(rows[..k]);
    var w := NodeWrites(rows[..k + 1]);
    var a, b := (NodeKey(row.sid), SourceNode(row)), (NodeKey(row.tid), TargetNode(row));
    var wa := w0 + [a];
    assert w == wa + [b];
    assert w[..|w| - 1] == wa;
    assert FromPairs(w) == Put(FromPairs(wa), b.0, b.1);
    assert wa[..|wa| - 1] == w0;
    assert FromPairs(wa) == Put(FromPairs(w0), a.0, a.1);
  }

  // ---------------------------------------------------------------------------
  // Properties
  // ---------------------------------------------------------------------------

  /** Each write puts a node under its own id. */
  lemma WritesKeyed(rows: seq<Row>)
    ensures forall j :: 0 <= j < |NodeWrites(rows)| ==>
      NodeWrites(rows)[j].1.NodeElement? && NodeWrites(rows)[j].1.id == NodeWrites(rows)[j].0
            && NodeWrites(rows)[j].1.labelText != ""
  {
    if rows != [] {
      WritesKeyed(rows[..|rows| - 1]);
    }
  }

  /** The ids written are the two ends of each row. */
  lemma {:induction false} WrittenIds(rows: seq<Row>)
    ensures forall row :: row in rows ==> NodeKey(row.sid) in KeysOf(NodeWrites(rows)) && NodeKey(row.tid) in KeysOf(NodeWrites(rows))
  {
    if rows != [] {
      var init, last := rows[..|rows| - 1], rows[|rows| - 1];
      WrittenIds(init);
      var w0 := NodeWrites(init);
      var w := NodeWrites(rows);
      assert w == w0 + [(NodeKey(last.sid), SourceNode(last)), (NodeKey(last.tid), TargetNode(last))];
      assert KeysOf(w) == KeysOf(w0) + [NodeKey(last.sid), NodeKey(last.tid)];
      forall row | row in rows
        ensures NodeKey(row.sid) in KeysOf(w) && NodeKey(row.tid) in KeysOf(w)
      {
        if row != last {
          assert row in init;
        }
      }
    }
  }

  /**
   * The nodes have pairwise different ids, each a labelled node kept under
   * its id with the data of the last row that mentions it; there is one edge
   * per row, in row order; and both ends of every edge are among the nodes.
   */
  lemma GraphElementsSpec(rows: seq<Row>)
    requires rows != []
    ensures var nodes := ValuesOf(NodeWrites(rows));
      && ElementsOf(rows) == nodes + Map(rows, RowEdge)
      && |nodes| <= 2 * |rows|
      && (forall i :: 0 <= i < |nodes| ==> nodes[i].NodeElement? && nodes[i].labelText != "")
      && (forall i, j :: 0 <= i < j < |nodes| ==> nodes[i].id != nodes[j].id)
      && (forall i :: 0 <= i < |nodes| ==> nodes[i].id == Unique(KeysOf(NodeWrites(rows)))[i])
      && (forall i :: 0 <= i < |nodes| ==> nodes[i].id in KeysOf(NodeWrites(rows)) && nodes[i] == LastValue(NodeWrites(rows), nodes[i].id))
      && (forall k :: 0 <= k < |rows| ==> exists i :: 0 <= i < |nodes| && nodes[i].id == NodeKey(rows[k].sid))
      && (forall k :: 0 <= k < |rows| ==> exists i :: 0 <= i < |nodes| && nodes[i].id == NodeKey(rows[k].tid))
  {
    NodesShape(rows);
    NodesDistinct(rows);
    EndsAmongNodes(rows);
  }

  /** At most two nodes per row, with pairwise different ids, each holding the last write under its id. */
  lemma NodesDistinct(rows: seq<Row>)
    ensures var nodes := ValuesOf(NodeWrites(rows));
      && |nodes| <= 2 * |rows|
      && (forall i, j :: 0 <= i < j < |nodes| ==> nodes[i].id != nodes[j].id)
      && (forall i :: 0 <= i < |nodes| ==> nodes[i].id in KeysOf(NodeWrites(rows)) && nodes[i] == LastValue(NodeWrites(rows), nodes[i].id))
  {
    var w := NodeWrites(rows);
    var nodes := ValuesOf(w);
    var ids := Unique(KeysOf(w));
    GraphElements.UniqueNoLonger(KeysOf(w));
    NodesShape(rows);
    assert forall i :: 0 <= i < |nodes| ==> nodes[i].id == ids[i];
  }

  /** Each node is a labelled node element whose id is the key it is kept under. */
  lemma NodesShape(rows: seq<Row>)
    ensures var nodes := ValuesOf(NodeWrites(rows));
      forall i :: 0 <= i < |nodes| ==>
        nodes[i].NodeElement? && nodes[i].labelText != "" && nodes[i].id == Unique(KeysOf(NodeWrites(rows)))[i]
  {
    var w := NodeWrites(rows);
    var nodes := ValuesOf(w);
    var ids := Unique(KeysOf(w));
    WritesKeyed(rows);
    forall i | 0 <= i < |nodes|
      ensures nodes[i].NodeElement? && nodes[i].labelText != "" && nodes[i].id == ids[i]
    {
      GraphElements.LastValuePaired(w, ids[i]);
    }
  }

  /** Both ends of every row are among the nodes. */
  lemma EndsAmongNodes(rows: seq<Row>)
    ensures var nodes := ValuesOf(NodeWrites(rows));
      forall k :: 0 <= k < |rows| ==>
        && (exists i :: 0 <= i < |nodes| && nodes[i].id == NodeKey(rows[k].sid))
        && (exists i :: 0 <= i < |nodes| && nodes[i].id == NodeKey(rows[k].tid))
  {
    var w := NodeWrites(rows);
    var nodes := ValuesOf(w);
    var ids := Unique(KeysOf(w));
    NodesShape(rows);
    WrittenIds(rows);
    forall k | 0 <= k < |rows|
      ensures (exists i :: 0 <= i < |nodes| && nodes[i].id == NodeKey(rows[k].sid))
           && (exists i :: 0 <= i < |nodes| && nodes[i].id == NodeKey(rows[k].tid))
    {
      assert rows[k] in rows;
      var i := FirstIndex(ids, NodeKey(rows[k].sid));
      var j := FirstIndex(ids, NodeKey(rows[k].tid));
      assert nodes[i].id == NodeKey(rows[k].sid);
      assert nodes[j].id == NodeKey(rows[k].tid);
    }
  }

  /**
   * The endpoint answers an HTTP error exactly when the database failed,
   * with `neo4j_run`'s status (503, 401 or 500) and detail; it answers no
   * elements exactly when there were no rows or another exception was
   * raised, and at least one edge otherwise.
   */
  lemma FailureResponses(outcome: QueryOutcome)
    ensures ResponseOf(outcome).HttpError? <==> outcome.DbFailed?
    ensures outcome.DbFailed? ==>
      ResponseOf(outcome) == HttpError(RunError(outcome.failure).status, RunError(outcome.failure).detail)
      && ResponseOf(outcome).status in {401, 500, 503}
    ensures ResponseOf(outcome) == Elements([]) <==> outcome == Rows([]) || outcome.LoopRaised?
  {
    if outcome.Rows? && outcome.rows != [] {
      assert |ElementsOf(outcome.rows)| >= |outcome.rows| > 0;
    }
  }

  /** Different database ids give different node ids. */
  lemma NodeKeyInjective(a: int, b: int)
    ensures NodeKey(a) == NodeKey(b) ==> a == b
  {
    if NodeKey(a) == NodeKey(b) {
      assert NodeKey(a)[1..] == IntToString(a) && NodeKey(b)[1..] == IntToString(b);
      IntToStringInjective(a, b);
    }
  }

  /**
   * Two rows give the same edge id exactly when they join the same two
   * database nodes by the same relationship type.
   */
  lemma EdgeIdSpec(r1: Row, r2: Row)
    ensures EdgeId(r1) == EdgeId(r2) <==> r1.sid == r2.sid && r1.tid == r2.tid && r1.rel == r2.rel
  {
    if EdgeId(r1) == EdgeId(r2) {
      KeyHasNoSeparator(r1.sid);
      KeyHasNoSeparator(r2.sid);
      KeyHasNoSeparator(r1.tid);
      KeyHasNoSeparator(r2.tid);
      SplitEdgeId(NodeKey(r1.sid), NodeKey(r1.tid), r1.rel, NodeKey(r2.sid), NodeKey(r2.tid), r2.rel);
      NodeKeyInjective(r1.sid, r2.sid);
      NodeKeyInjective(r1.tid, r2.tid);
    }
  }

  /** An edge id splits back into its source, target and relationship type. */
  lemma SplitEdgeId(s1: string, t1: string, rel1: string, s2: string, t2: string, rel2: string)
    requires '>' !in s1 + "-" && '>' !in s2 + "-" && ':' !in t1 && ':' !in t2
    requires s1 + "->" + t1 + ":" + rel1 == s2 + "->" + t2 + ":" + rel2
    ensures s1 == s2 && t1 == t2 && rel1 == rel2
  {
    assert s1 + "->" + t1 + ":" + rel1 == (s1 + "-") + ">" + (t1 + ":" + rel1);
    assert s2 + "->" + t2 + ":" + rel2 == (s2 + "-") + ">" + (t2 + ":" + rel2);
    SplitAtFirst(s1 + "-", s2 + "-", t1 + ":" + rel1, t2 + ":" + rel2, '>');
    assert s1 == (s1 + "-")[..|s1|];
    assert s2 == (s2 + "-")[..|s2|];
    SplitAtFirst(t1, t2, rel1, rel2, ':');
  }

  /** A node id is `n`, an optional `-` and digits: it holds neither `>` nor `:`. */
  lemma KeyHasNoSeparator(dbId: int)
    ensures '>' !in NodeKey(dbId) + "-" && ':' !in NodeKey(dbId)
  {
    var digits := if dbId < 0 then NatToString(-dbId) else NatToString(dbId);
    assert NodeKey(dbId) == "n" + (if dbId < 0 then "-" else "") + digits;
  }

  /** Two strings joined to a tail at a character neither contains can be split back apart. */
  lemma SplitAtFirst(a: string, b: string, x: string, y: string, c: char)
    requires c !in a && c !in b
    requires a + [c] + x == b + [c] + y
    ensures a == b && x == y
  {
    var s := a + [c] + x;
    assert forall j :: 0 <= j < |a| ==> s[j] == a[j] && s[j] != c;
    assert forall j :: 0 <= j < |b| ==> s[j] == b[j] && s[j] != c;
    assert s[|a|] == c && s[|b|] == c;
    var k := FirstIndex(s, c);
    assert k == |a| && k == |b|;
    assert a == s[..|a|] == b;
    assert x == s[|a| + 1..] == y;
  }
}
