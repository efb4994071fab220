/**
 * An abstract property graph with the semantics of the Cypher statements the
 * O365 connector issues: MERGE of nodes on (label, id), ON CREATE SET of
 * `firstseen`, SET of properties and of `lastupdated`, MATCH-then-MERGE of
 * relationships, and the mark-and-sweep cleanup statements.
 *
 * A node is keyed by its label and its `id`; an edge by its endpoints and its
 * type, so there is at most one edge of a type between two nodes. The run tag
 * (`update_tag`) is an integer and `timestamp()` is the integer `now` passed to
 * each statement.
 */
module GraphStore {
  import opened Records

  datatype NodeKey = NodeKey(nodeLabel: string, id: Value)

  /** The properties a loader SETs, plus the two bookkeeping stamps. */
  datatype Node = Node(props: map<string, Value>, firstseen: int, lastupdated: int)

  datatype EdgeKey = EdgeKey(src: NodeKey, relType: string, tgt: NodeKey)

  datatype Edge = Edge(firstseen: int, lastupdated: int)

  datatype GraphState = GraphState(nodes: map<NodeKey, Node>, edges: map<EdgeKey, Edge>)

  /** No node is keyed by a null id and every edge joins two existing nodes. */
  predicate Valid(g: GraphState)
  {
    && (forall k :: k in g.nodes ==> k.id != Null)
    && (forall e :: e in g.edges ==> e.src in g.nodes && e.tgt in g.nodes)
  }

  // ---------------------------------------------------------------------------
  // Nodes: UNWIND $rows AS row MERGE (n:Label {id: row.id})
  //        ON CREATE SET n.firstseen = timestamp()
  //        SET n.p = row.p, ..., n.lastupdated = $update_tag
  // ---------------------------------------------------------------------------

  /** `SET n.p = row.p` for every listed `p`: a missing or null value removes
      the property, any other value overwrites it; unlisted properties stay. */
  function SetProps(props: map<string, Value>, row: Record, names: seq<string>): (r: map<string, Value>)
    ensures forall k :: k in names ==> (k in r <==> Get(row, k) != Null)
    ensures forall k :: k in names && k in r ==> r[k] == Get(row, k)
    ensures forall k :: k !in names ==> (k in r <==> k in props)
    ensures forall k :: k !in names && k in r ==> r[k] == props[k]
  {
    map k | k in props.Keys + KeySet(names) && (k in names ==> Get(row, k) != Null) ::
      if k in names then Get(row, k) else props[k]
  }

  /** A later SET of the same properties hides an earlier one entirely. */
  lemma SetPropsOverride(props: map<string, Value>, first: Record, second: Record, names: seq<string>)
    ensures SetProps(SetProps(props, first, names), second, names) == SetProps(props, second, names)
  {
    var a, b := SetProps(SetProps(props, first, names), second, names), SetProps(props, second, names);
    assert forall k :: k in a <==> k in b;
  }

  function KeyOf(nodeLabel: string, row: Record): NodeKey
  {
    NodeKey(nodeLabel, Get(row, "id"))
  }

  /** The effect of one UNWIND row. */
  function MergeRow(nodes: map<NodeKey, Node>, nodeLabel: string, row: Record, names: seq<string>,
                    tag: int, now: int): map<NodeKey, Node>
  {
    var k := KeyOf(nodeLabel, row);
    if k in nodes then nodes[k := Node(SetProps(nodes[k].props, row, names), nodes[k].firstseen, tag)]
    else nodes[k := Node(SetProps(map[], row, names), now, tag)]
  }

  /** The rows applied in order; a row sees the nodes earlier rows created. */
  function MergedNodes(nodes: map<NodeKey, Node>, nodeLabel: string, rows: seq<Record>, names: seq<string>,
                       tag: int, now: int): map<NodeKey, Node>
    decreases |rows|
  {
    if rows == [] then nodes
    else MergeRow(MergedNodes(nodes, nodeLabel, rows[..|rows| - 1], names, tag, now),
                  nodeLabel, rows[|rows| - 1], names, tag, now)
  }

  /** MERGE on a null id raises, which aborts the whole statement. */
  predicate AllIdsPresent(rows: seq<Record>)
  {
    forall i :: 0 <= i < |rows| ==> Get(rows[i], "id") != Null
  }

  /** The keys a batch MERGEs. */
  function BatchKeys(nodeLabel: string, rows: seq<Record>): set<NodeKey>
  {
    set i | 0 <= i < |rows| :: KeyOf(nodeLabel, rows[i])
  }

  /** The position of the last row carrying `id`, or -1. */
  function LastIndex(rows: seq<Record>, id: Value): (r: int)
    ensures -1 <= r < |rows|
    ensures r >= 0 ==> Get(rows[r], "id") == id
    ensures forall j :: r < j < |rows| ==> Get(rows[j], "id") != id
    decreases |rows|
  {
    if rows == [] then -1
    else if Get(rows[|rows| - 1], "id") == id then |rows| - 1
    else LastIndex(rows[..|rows| - 1], id)
  }

  function PriorProps(nodes: map<NodeKey, Node>, k: NodeKey): map<string, Value>
  {
    if k in nodes then nodes[k].props else map[]
  }

  function PriorFirstseen(nodes: map<NodeKey, Node>, k: NodeKey, now: int): int
  {
    if k in nodes then nodes[k].firstseen else now
  }

  lemma BatchKeysSnoc(nodeLabel: string, rows: seq<Record>)
    requires rows != []
    ensures BatchKeys(nodeLabel, rows) ==
      BatchKeys(nodeLabel, rows[..|rows| - 1]) + {KeyOf(nodeLabel, rows[|rows| - 1])}
  {
    var pre := rows[..|rows| - 1];
    forall k | k in BatchKeys(nodeLabel, pre) ensures k in BatchKeys(nodeLabel, rows) {
      var i :| 0 <= i < |pre| && k == KeyOf(nodeLabel, pre[i]);
      assert pre[i] == rows[i];
    }
  }

  /** After a batch: exactly the old keys and the batch keys are present; a node
      outside the batch is untouched; a batch node keeps its `firstseen` (or gets
      `now` when created), is tagged, and carries the properties of the last row
      with its id laid over what it had before. */
  lemma {:induction false} MergedNodesAt(nodes: map<NodeKey, Node>, nodeLabel: string, rows: seq<Record>,
                                         names: seq<string>, tag: int, now: int)
    ensures forall k :: k in MergedNodes(nodes, nodeLabel, rows, names, tag, now) <==>
      k in nodes || k in BatchKeys(nodeLabel, rows)
    ensures forall k :: k in nodes && k !in BatchKeys(nodeLabel, rows) ==>
      MergedNodes(nodes, nodeLabel, rows, names, tag, now)[k] == nodes[k]
    ensures forall k :: k in BatchKeys(nodeLabel, rows) ==>
      && k.nodeLabel == nodeLabel
      && 0 <= LastIndex(rows, k.id)
      && MergedNodes(nodes, nodeLabel, rows, names, tag, now)[k] ==
         Node(SetProps(PriorProps(nodes, k), rows[LastIndex(rows, k.id)], names), PriorFirstseen(nodes, k, now), tag)
    decreases |rows|
  {
    if rows != [] {
      var pre, last := rows[..|rows| - 1], rows[|rows| - 1];
      MergedNodesAt(nodes, nodeLabel, pre, names, tag, now);
      BatchKeysSnoc(nodeLabel, rows);
      var m0 := MergedNodes(nodes, nodeLabel, pre, names, tag, now);
      var m := MergedNodes(nodes, nodeLabel, rows, names, tag, now);
      var lk := KeyOf(nodeLabel, last);
      assert m == MergeRow(m0, nodeLabel, last, names, tag, now);
      forall k | k in BatchKeys(nodeLabel, rows)
        ensures && k.nodeLabel == nodeLabel
                && 0 <= LastIndex(rows, k.id)
                && m[k] == Node(SetProps(PriorProps(nodes, k), rows[LastIndex(rows, k.id)], names),
                                PriorFirstseen(nodes, k, now), tag)
      {
        if k == lk {
          assert LastIndex(rows, k.id) == |rows| - 1;
          if k in BatchKeys(nodeLabel, pre) {
            SetPropsOverride(PriorProps(nodes, k), pre[LastIndex(pre, k.id)], last, names);
          }
        } else {
          assert LastIndex(rows, k.id) == LastIndex(pre, k.id);
          assert pre[LastIndex(pre, k.id)] == rows[LastIndex(rows, k.id)];
        }
      }
    }
  }

  /** Loading the same batch again with the same tag changes nothing, whatever
      the clock says the second time. */
  lemma MergedNodesIdempotent(nodes: map<NodeKey, Node>, nodeLabel: string, rows: seq<Record>,
                              names: seq<string>, tag: int, now: int, later: int)
    ensures MergedNodes(MergedNodes(nodes, nodeLabel, rows, names, tag, now), nodeLabel, rows, names, tag, later)
         == MergedNodes(nodes, nodeLabel, rows, names, tag, now)
  {
    var once := MergedNodes(nodes, nodeLabel, rows, names, tag, now);
    var twice := MergedNodes(once, nodeLabel, rows, names, tag, later);
    var batch := BatchKeys(nodeLabel, rows);
    MergedNodesAt(nodes, nodeLabel, rows, names, tag, now);
    MergedNodesAt(once, nodeLabel, rows, names, tag, later);
    assert twice.Keys == once.Keys;
    forall k | k in once ensures twice[k] == once[k] {
      if k in batch {
        var row := rows[LastIndex(rows, k.id)];
        SetPropsOverride(PriorProps(nodes, k), row, row, names);
      }
    }
  }

  /** A node load from a valid graph leaves a valid graph: no node gets a null
      id, and no edge loses an endpoint. */
  lemma MergedNodesValid(g: GraphState, nodeLabel: string, rows: seq<Record>, names: seq<string>, tag: int, now: int)
    requires Valid(g) && AllIdsPresent(rows)
    ensures Valid(GraphState(MergedNodes(g.nodes, nodeLabel, rows, names, tag, now), g.edges))
  {
    MergedNodesAt(g.nodes, nodeLabel, rows, names, tag, now);
  }

  /** The graph after one node statement: the merge, or the old graph when a
      null id makes the statement raise. */
  function AfterMergeNodes(g: GraphState, nodeLabel: string, rows: seq<Record>, names: seq<string>,
                           tag: int, now: int): GraphState
  {
    if AllIdsPresent(rows) then GraphState(MergedNodes(g.nodes, nodeLabel, rows, names, tag, now), g.edges) else g
  }

  // ---------------------------------------------------------------------------
  // Edges: MATCH (t:TgtLabel {id: $tgt_id}) UNWIND $ids AS i
  //        MATCH (s:SrcLabel {id: i}) MERGE (s)-[r:TYPE]->(t)
  //        ON CREATE SET r.firstseen = timestamp() SET r.lastupdated = $update_tag
  // ---------------------------------------------------------------------------

  function MergeEdge(edges: map<EdgeKey, Edge>, ek: EdgeKey, tag: int, now: int): map<EdgeKey, Edge>
  {
    edges[ek := Edge(if ek in edges then edges[ek].firstseen else now, tag)]
  }

  /** MATCH on `{id: x}` finds a node only when `x` is not null and the node exists. */
  predicate Matches(nodes: map<NodeKey, Node>, k: NodeKey)
  {
    k.id != Null && k in nodes
  }

  /** The relationships the statement MERGEs, given that the target matched. */
  function MatchedKeys(nodes: map<NodeKey, Node>, srcLabel: string, relType: string, tgt: NodeKey,
                       srcIds: seq<Value>): set<EdgeKey>
  {
    set i | 0 <= i < |srcIds| && Matches(nodes, NodeKey(srcLabel, srcIds[i])) ::
      EdgeKey(NodeKey(srcLabel, srcIds[i]), relType, tgt)
  }

  function MergedEdgesFrom(nodes: map<NodeKey, Node>, edges: map<EdgeKey, Edge>, srcLabel: string,
                           relType: string, tgt: NodeKey, srcIds: seq<Value>, tag: int, now: int): map<EdgeKey, Edge>
    decreases |srcIds|
  {
    if srcIds == [] then edges
    else
      var acc := MergedEdgesFrom(nodes, edges, srcLabel, relType, tgt, srcIds[..|srcIds| - 1], tag, now);
      var sk := NodeKey(srcLabel, srcIds[|srcIds| - 1]);
      if Matches(nodes, sk) then MergeEdge(acc, EdgeKey(sk, relType, tgt), tag, now) else acc
  }

  /** The whole statement: nothing happens when the target does not match. */
  function MergedEdges(nodes: map<NodeKey, Node>, edges: map<EdgeKey, Edge>, srcLabel: string,
                       relType: string, tgt: NodeKey, srcIds: seq<Value>, tag: int, now: int): map<EdgeKey, Edge>
  {
    if Matches(nodes, tgt) then MergedEdgesFrom(nodes, edges, srcLabel, relType, tgt, srcIds, tag, now)
    else edges
  }

  lemma {:induction false} MergedEdgesFromAt(nodes: map<NodeKey, Node>, edges: map<EdgeKey, Edge>, srcLabel: string,
                                             relType: string, tgt: NodeKey, srcIds: seq<Value>, tag: int, now: int)
    ensures forall e :: e in MergedEdgesFrom(nodes, edges, srcLabel, relType, tgt, srcIds, tag, now) <==>
      e in edges || e in MatchedKeys(nodes, srcLabel, relType, tgt, srcIds)
    ensures forall e :: e in edges && e !in MatchedKeys(nodes, srcLabel, relType, tgt, srcIds) ==>
      MergedEdgesFrom(nodes, edges, srcLabel, relType, tgt, srcIds, tag, now)[e] == edges[e]
    ensures forall e :: e in MatchedKeys(nodes, srcLabel, relType, tgt, srcIds) ==>
      MergedEdgesFrom(nodes, edges, srcLabel, relType, tgt, srcIds, tag, now)[e] ==
        Edge(if e in edges then edges[e].firstseen else now, tag)
    decreases |srcIds|
  {
    if srcIds != [] {
      var pre := srcIds[..|srcIds| - 1];
      MergedEdgesFromAt(nodes, edges, srcLabel, relType, tgt, pre, tag, now);
      var sk := NodeKey(srcLabel, srcIds[|srcIds| - 1]);
      var mk, mk0 := MatchedKeys(nodes, srcLabel, relType, tgt, srcIds), MatchedKeys(nodes, srcLabel, relType, tgt, pre);
      assert mk == mk0 + (if Matches(nodes, sk) then {EdgeKey(sk, relType, tgt)} else {}) by {
        forall e | e in mk0 ensures e in mk {
          var i :| 0 <= i < |pre| && Matches(nodes, NodeKey(srcLabel, pre[i])) && e == EdgeKey(NodeKey(srcLabel, pre[i]), relType, tgt);
          assert pre[i] == srcIds[i];
        }
      }
    }
  }

  /** After the statement: the old edges plus the matched ones; an edge it does
      not match is untouched; a matched edge keeps its `firstseen` (or gets
      `now` when created) and is tagged; no node is created. */
  lemma MergedEdgesAt(nodes: map<NodeKey, Node>, edges: map<EdgeKey, Edge>, srcLabel: string,
                      relType: string, tgt: NodeKey, srcIds: seq<Value>, tag: int, now: int)
    ensures var m := MergedEdges(nodes, edges, srcLabel, relType, tgt, srcIds, tag, now);
      var mk := if Matches(nodes, tgt) then MatchedKeys(nodes, srcLabel, relType, tgt, srcIds) else {};
      && (forall e :: e in m <==> e in edges || e in mk)
      && (forall e :: e in edges && e !in mk ==> m[e] == edges[e])
      && (forall e :: e in mk ==> m[e] == Edge(if e in edges then edges[e].firstseen else now, tag))
      && (forall e :: e in mk ==> e.src.nodeLabel == srcLabel && e.relType == relType && e.tgt == tgt
                                  && Matches(nodes, e.src) && Matches(nodes, e.tgt))
  {
    MergedEdgesFromAt(nodes, edges, srcLabel, relType, tgt, srcIds, tag, now);
  }

  /** Merging edges between existing nodes keeps the graph free of dangling edges. */
  lemma MergedEdgesValid(g: GraphState, srcLabel: string, relType: string, tgt: NodeKey,
                         srcIds: seq<Value>, tag: int, now: int)
    requires Valid(g)
    ensures Valid(GraphState(g.nodes, MergedEdges(g.nodes, g.edges, srcLabel, relType, tgt, srcIds, tag, now)))
  {
    MergedEdgesAt(g.nodes, g.edges, srcLabel, relType, tgt, srcIds, tag, now);
  }

  // ---------------------------------------------------------------------------
  // Cleanup: MATCH (n:Label) WHERE n.lastupdated <> $update_tag DETACH DELETE n
  //          MATCH (:Src)-[r:TYPE]->(:Tgt) WHERE r.lastupdated <> $update_tag DELETE r
  // ---------------------------------------------------------------------------

  datatype CleanupJob =
    | DetachDeleteStale(nodeLabel: string)
    | DeleteStaleEdges(srcLabel: string, relType: string, tgtLabel: string)

  /** A node the DETACH DELETE statement for `nodeLabel` removes. */
  predicate StaleNode(g: GraphState, nodeLabel: string, tag: int, k: NodeKey)
  {
    k in g.nodes && k.nodeLabel == nodeLabel && g.nodes[k].lastupdated != tag
  }

  predicate StaleEdge(g: GraphState, srcLabel: string, relType: string, tgtLabel: string, tag: int, e: EdgeKey)
  {
    e in g.edges && e.src.nodeLabel == srcLabel && e.relType == relType && e.tgt.nodeLabel == tgtLabel
    && g.edges[e].lastupdated != tag
  }

  function RunJob(g: GraphState, job: CleanupJob, tag: int): GraphState
  {
    match job
    case DetachDeleteStale(l) =>
      GraphState(map k | k in g.nodes && !StaleNode(g, l, tag, k) :: g.nodes[k],
                 map e | e in g.edges && !StaleNode(g, l, tag, e.src) && !StaleNode(g, l, tag, e.tgt) :: g.edges[e])
    case DeleteStaleEdges(s, r, t) =>
      GraphState(g.nodes, map e | e in g.edges && !StaleEdge(g, s, r, t, tag, e) :: g.edges[e])
  }

  /** The jobs run one after another, each on the graph the previous one left. */
  function RunJobs(g: GraphState, jobs: seq<CleanupJob>, tag: int): GraphState
    decreases |jobs|
  {
    if jobs == [] then g else RunJobs(RunJob(g, jobs[0], tag), jobs[1..], tag)
  }

  /** The labels some job of the list sweeps. */
  function SweptLabels(jobs: seq<CleanupJob>): set<string>
  {
    if jobs == [] then {}
    else (if jobs[0].DetachDeleteStale? then {jobs[0].nodeLabel} else {}) + SweptLabels(jobs[1..])
  }

  /** A node some job of the list removes. */
  predicate Doomed(g: GraphState, jobs: seq<CleanupJob>, tag: int, k: NodeKey)
  {
    k in g.nodes && k.nodeLabel in SweptLabels(jobs) && g.nodes[k].lastupdated != tag
  }

  /** An edge whose own stamp some job of the list finds stale. */
  predicate SweptEdge(g: GraphState, jobs: seq<CleanupJob>, tag: int, e: EdgeKey)
  {
    e in g.edges && DeleteStaleEdges(e.src.nodeLabel, e.relType, e.tgt.nodeLabel) in jobs
    && g.edges[e].lastupdated != tag
  }

  /** The nodes a list of cleanup jobs leaves: every node except the stale
      ones of a swept label, unchanged. */
  lemma {:induction false} RunJobsNodes(g: GraphState, jobs: seq<CleanupJob>, tag: int)
    ensures forall k :: k in RunJobs(g, jobs, tag).nodes <==> k in g.nodes && !Doomed(g, jobs, tag, k)
    ensures forall k :: k in RunJobs(g, jobs, tag).nodes ==> RunJobs(g, jobs, tag).nodes[k] == g.nodes[k]
    decreases |jobs|
  {
    if jobs != [] {
      var g1, rest := RunJob(g, jobs[0], tag), jobs[1..];
      RunJobsNodes(g1, rest, tag);
      assert SweptLabels(jobs) == (if jobs[0].DetachDeleteStale? then {jobs[0].nodeLabel} else {}) + SweptLabels(rest);
      forall k | k in g1.nodes ensures Doomed(g1, rest, tag, k) <==> Doomed(g, rest, tag, k) {
      }
    }
  }

  /** The edges a list of cleanup jobs leaves: every edge except those
      touching a removed node and those a relationship job finds stale. */
  lemma {:induction false} RunJobsEdges(g: GraphState, jobs: seq<CleanupJob>, tag: int)
    ensures forall e :: e in RunJobs(g, jobs, tag).edges <==>
      e in g.edges && !Doomed(g, jobs, tag, e.src) && !Doomed(g, jobs, tag, e.tgt) && !SweptEdge(g, jobs, tag, e)
    decreases |jobs|
  {
    if jobs != [] {
      var g1, rest := RunJob(g, jobs[0], tag), jobs[1..];
      RunJobsEdges(g1, rest, tag);
      assert SweptLabels(jobs) == (if jobs[0].DetachDeleteStale? then {jobs[0].nodeLabel} else {}) + SweptLabels(rest);
      assert forall j :: j in jobs <==> j == jobs[0] || j in rest;
      forall e | e in g1.edges
        ensures Doomed(g1, rest, tag, e.src) <==> Doomed(g, rest, tag, e.src)
        ensures Doomed(g1, rest, tag, e.tgt) <==> Doomed(g, rest, tag, e.tgt)
        ensures SweptEdge(g1, rest, tag, e) <==> SweptEdge(g, rest, tag, e)
      {
      }
    }
  }

  /** The edges that survive cleanup keep their stamps. */
  lemma {:induction false} RunJobsEdgesUnchanged(g: GraphState, jobs: seq<CleanupJob>, tag: int)
    ensures forall e :: e in RunJobs(g, jobs, tag).edges ==> e in g.edges && RunJobs(g, jobs, tag).edges[e] == g.edges[e]
    decreases |jobs|
  {
    if jobs != [] {
      RunJobsEdgesUnchanged(RunJob(g, jobs[0], tag), jobs[1..], tag);
    }
  }

  /** What a list of cleanup jobs leaves: every node except the stale ones of a
      swept label, and every edge except those touching a removed node and those
      a relationship job finds stale; survivors are unchanged. The order of the
      jobs does not matter. */
  lemma RunJobsAt(g: GraphState, jobs: seq<CleanupJob>, tag: int)
    ensures forall k :: k in RunJobs(g, jobs, tag).nodes <==> k in g.nodes && !Doomed(g, jobs, tag, k)
    ensures forall k :: k in RunJobs(g, jobs, tag).nodes ==> RunJobs(g, jobs, tag).nodes[k] == g.nodes[k]
    ensures forall e :: e in RunJobs(g, jobs, tag).edges <==>
      e in g.edges && !Doomed(g, jobs, tag, e.src) && !Doomed(g, jobs, tag, e.tgt) && !SweptEdge(g, jobs, tag, e)
    ensures forall e :: e in RunJobs(g, jobs, tag).edges ==> RunJobs(g, jobs, tag).edges[e] == g.edges[e]
  {
    RunJobsNodes(g, jobs, tag);
    RunJobsEdges(g, jobs, tag);
    RunJobsEdgesUnchanged(g, jobs, tag);
  }

  /** Cleanup never leaves an edge pointing at a removed node. */
  lemma RunJobsValid(g: GraphState, jobs: seq<CleanupJob>, tag: int)
    requires Valid(g)
    ensures Valid(RunJobs(g, jobs, tag))
  {
    RunJobsAt(g, jobs, tag);
  }

  /** A second cleanup with the same tag removes nothing. */
  lemma RunJobsIdempotent(g: GraphState, jobs: seq<CleanupJob>, tag: int)
    ensures RunJobs(RunJobs(g, jobs, tag), jobs, tag) == RunJobs(g, jobs, tag)
  {
    var once := RunJobs(g, jobs, tag);
    var twice := RunJobs(once, jobs, tag);
    RunJobsAt(g, jobs, tag);
    RunJobsAt(once, jobs, tag);
    assert forall k :: k in twice.nodes <==> k in once.nodes;
    assert forall e :: e in twice.edges <==> e in once.edges;
  }

  /** Loading a batch with a fresh tag and then sweeping its label leaves, of
      that label, exactly the nodes the batch named. */
  lemma LoadThenSweep(g: GraphState, nodeLabel: string, rows: seq<Record>, names: seq<string>, tag: int, now: int)
    requires forall k :: k in g.nodes && k.nodeLabel == nodeLabel ==> g.nodes[k].lastupdated != tag
    ensures var loaded := GraphState(MergedNodes(g.nodes, nodeLabel, rows, names, tag, now), g.edges);
      forall k: NodeKey :: k.nodeLabel == nodeLabel ==>
        (k in RunJob(loaded, DetachDeleteStale(nodeLabel), tag).nodes <==> k in BatchKeys(nodeLabel, rows))
  {
    MergedNodesAt(g.nodes, nodeLabel, rows, names, tag, now);
  }

  // ---------------------------------------------------------------------------
  // The graph the session writes to.
  // ---------------------------------------------------------------------------

  class Graph {
    var nodes: map<NodeKey, Node>
    var edges: map<EdgeKey, Edge>

    function State(): GraphState
      reads this
    {
      GraphState(nodes, edges)
    }

    constructor ()
      ensures nodes == map[] && edges == map[]
    {
      nodes := map[];
      edges := map[];
    }

    /** One UNWIND/MERGE/SET statement. A null id makes the statement raise and
        roll back, leaving the graph as it was. */
    method MergeNodes(nodeLabel: string, rows: seq<Record>, names: seq<string>, tag: int, now: int)
      returns (ok: bool)
      modifies this
      ensures ok == AllIdsPresent(rows)
      ensures ok ==> nodes == MergedNodes(old(nodes), nodeLabel, rows, names, tag, now)
      ensures !ok ==> nodes == old(nodes)
      ensures edges == old(edges)
      ensures State() == AfterMergeNodes(old(State()), nodeLabel, rows, names, tag, now)
    {
      var acc := nodes;
      for i := 0 to |rows|
        invariant nodes == old(nodes) && edges == old(edges)
        invariant AllIdsPresent(rows[..i])
        invariant acc == MergedNodes(old(nodes), nodeLabel, rows[..i], names, tag, now)
      {
        if Get(rows[i], "id") == Null {
          return false;
        }
        assert rows[..i + 1][..i] == rows[..i];
        acc := MergeRow(acc, nodeLabel, rows[i], names, tag, now);
      }
      assert rows[..|rows|] == rows;
      nodes := acc;
      ok := true;
    }

    /** One MATCH/UNWIND/MATCH/MERGE statement for the relationships from the
        `srcIds` nodes of `srcLabel` to `tgt`. */
    method MatchMergeEdges(srcLabel: string, relType: string, tgt: NodeKey, srcIds: seq<Value>, tag: int, now: int)
      modifies this
      ensures nodes == old(nodes)
      ensures edges == MergedEdges(old(nodes), old(edges), srcLabel, relType, tgt, srcIds, tag, now)
    {
      if tgt.id != Null && tgt in nodes {
        for i := 0 to |srcIds|
          invariant nodes == old(nodes)
          invariant edges == MergedEdgesFrom(nodes, old(edges), srcLabel, relType, tgt, srcIds[..i], tag, now)
        {
          assert srcIds[..i + 1][..i] == srcIds[..i];
          var sk := NodeKey(srcLabel, srcIds[i]);
          if srcIds[i] != Null && sk in nodes {
            edges := MergeEdge(edges, EdgeKey(sk, relType, tgt), tag, now);
          }
        }
        assert srcIds[..|srcIds|] == srcIds;
      }
    }

    /** One cleanup statement (`run_cleanup_job`). */
    method RunCleanupJob(job: CleanupJob, tag: int)
      modifies this
      ensures State() == RunJob(old(State()), job, tag)
    {
      var r := RunJob(State(), job, tag);
      nodes, edges := r.nodes, r.edges;
    }
  }
}
