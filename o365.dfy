/**
 * The O365 connector (intel/o365/o365.py): field-mapping transforms, the
 * node loaders and the MEMBER_OF loader written as Cypher against the graph,
 * and the four cleanup statements.
 */
module O365 {
  import opened Records
  import opened GraphStore
  import SchemaTypes
  import O365Schema

  const UserLabel: string := "O365User"
  const GroupLabel: string := "O365Group"
  const OULabel: string := "O365OrganizationalUnit"
  const MemberOf: string := "MEMBER_OF"

  /** The properties each loader's SET clause writes besides `lastupdated`. */
  const UserSetFields: seq<string> := ["displayName", "userPrincipalName", "mail", "jobTitle", "department"]
  const GroupSetFields: seq<string> := ["displayName", "description", "mail"]
  const OUSetFields: seq<string> := ["displayName", "description"]

  /** The labels and relationship type the Cypher uses are the ones the schemas declare. */
  lemma CypherMatchesSchema()
    ensures UserLabel == O365Schema.UserSchema.nodeLabel
    ensures GroupLabel == O365Schema.GroupSchema.nodeLabel
    ensures OULabel == O365Schema.OrganizationalUnitSchema.nodeLabel
    ensures MemberOf == O365Schema.UserToGroupRel.relLabel
    ensures O365Schema.UserToGroupRel.targetLabel == GroupLabel
  {
  }

  // ---------------------------------------------------------------------------
  // Transforms
  // ---------------------------------------------------------------------------

  /** `transform_users`: one record per user, in order, holding exactly the six
      user fields; a field the API omitted becomes null, any other is dropped. */
  method TransformUsers(users: seq<Record>) returns (r: seq<Record>)
    ensures r == ProjectAll(users, UserFields)
    ensures |r| == |users|
    ensures forall i :: 0 <= i < |r| ==> r[i].Keys == KeySet(UserFields) && |r[i].Keys| == 6
    ensures forall i, f :: 0 <= i < |r| && f in UserFields ==> r[i][f] == Get(users[i], f)
  {
    r := [];
    for i := 0 to |users|
      invariant |r| == i
      invariant forall j :: 0 <= j < i ==> r[j] == Project(users[j], UserFields)
    {
      r := r + [Project(users[i], UserFields)];
    }
    UserFieldCount();
  }

  /** `transform_groups`: the four group fields, likewise. */
  method TransformGroups(groups: seq<Record>) returns (r: seq<Record>)
    ensures r == ProjectAll(groups, GroupFields)
    ensures |r| == |groups|
    ensures forall i :: 0 <= i < |r| ==> r[i].Keys == KeySet(GroupFields) && |r[i].Keys| == 4
    ensures forall i, f :: 0 <= i < |r| && f in GroupFields ==> r[i][f] == Get(groups[i], f)
  {
    r := [];
    for i := 0 to |groups|
      invariant |r| == i
      invariant forall j :: 0 <= j < i ==> r[j] == Project(groups[j], GroupFields)
    {
      r := r + [Project(groups[i], GroupFields)];
    }
    GroupFieldCount();
  }

  /** `transform_ous`: the three OU fields of each administrative unit. */
  method TransformOus(units: seq<Record>) returns (r: seq<Record>)
    ensures r == ProjectAll(units, OUFields)
    ensures |r| == |units|
    ensures forall i :: 0 <= i < |r| ==> r[i].Keys == KeySet(OUFields) && |r[i].Keys| == 3
    ensures forall i, f :: 0 <= i < |r| && f in OUFields ==> r[i][f] == Get(units[i], f)
  {
    r := [];
    for i := 0 to |units|
      invariant |r| == i
      invariant forall j :: 0 <= j < i ==> r[j] == Project(units[j], OUFields)
    {
      r := r + [Project(units[i], OUFields)];
    }
    OUFieldCount();
  }

  /** A transformed user meets the O365 user schema exactly when the API gave
      non-null values for the four required fields. */
  lemma TransformedUserConforms(raw: Record)
    ensures SchemaTypes.Satisfies(Project(raw, UserFields), O365Schema.UserSchema) <==>
      Get(raw, "id") != Null && Get(raw, "displayName") != Null &&
      Get(raw, "userPrincipalName") != Null && Get(raw, "mail") != Null
  {
    O365Schema.UserSchemaProperties();
    SchemaTypes.ProjectSatisfies(raw, UserFields, O365Schema.UserSchema);
  }

  /** A transformed group meets the O365 group schema exactly when `id` and
      `displayName` are non-null. */
  lemma TransformedGroupConforms(raw: Record)
    ensures SchemaTypes.Satisfies(Project(raw, GroupFields), O365Schema.GroupSchema) <==>
      Get(raw, "id") != Null && Get(raw, "displayName") != Null
  {
    O365Schema.GroupSchemaProperties();
    SchemaTypes.ProjectSatisfies(raw, GroupFields, O365Schema.GroupSchema);
  }

  /** A transformed OU meets the O365 OU schema exactly when `id` and
      `displayName` are non-null. */
  lemma TransformedOUConforms(raw: Record)
    ensures SchemaTypes.Satisfies(Project(raw, OUFields), O365Schema.OrganizationalUnitSchema) <==>
      Get(raw, "id") != Null && Get(raw, "displayName") != Null
  {
    O365Schema.OrganizationalUnitSchemaProperties();
    SchemaTypes.ProjectSatisfies(raw, OUFields, O365Schema.OrganizationalUnitSchema);
  }

  // ---------------------------------------------------------------------------
  // Node loaders
  // ---------------------------------------------------------------------------

  /** `load_o365_users`; `ok` is false when the statement raised (a null id). */
  method LoadO365Users(g: Graph, users: seq<Record>, tag: int, now: int) returns (ok: bool)
    modifies g
    ensures ok == AllIdsPresent(users)
    ensures g.nodes == if ok then MergedNodes(old(g.nodes), UserLabel, users, UserSetFields, tag, now) else old(g.nodes)
    ensures g.edges == old(g.edges)
  {
    ok := g.MergeNodes(UserLabel, users, UserSetFields, tag, now);
  }

  /** `load_o365_groups`. */
  method LoadO365Groups(g: Graph, groups: seq<Record>, tag: int, now: int) returns (ok: bool)
    modifies g
    ensures ok == AllIdsPresent(groups)
    ensures g.nodes == if ok then MergedNodes(old(g.nodes), GroupLabel, groups, GroupSetFields, tag, now) else old(g.nodes)
    ensures g.edges == old(g.edges)
  {
    ok := g.MergeNodes(GroupLabel, groups, GroupSetFields, tag, now);
  }

  /** `load_o365_organizational_units`: an empty list returns before any statement runs. */
  method LoadO365OrganizationalUnits(g: Graph, ous: seq<Record>, tag: int, now: int) returns (ok: bool)
    modifies g
    ensures ok == AllIdsPresent(ous)
    ensures ous == [] ==> g.State() == old(g.State())
    ensures g.nodes == if ok then MergedNodes(old(g.nodes), OULabel, ous, OUSetFields, tag, now) else old(g.nodes)
    ensures g.edges == old(g.edges)
  {
    if ous == [] {
      return true;
    }
    ok := g.MergeNodes(OULabel, ous, OUSetFields, tag, now);
  }

  /** A loaded user holds, for each SET property, the value of the last row
      with its id (absent when that value is null); a user created by the load
      gets `firstseen = now`, an existing one keeps its `firstseen`; every loaded
      user is tagged; users outside the batch and other labels are untouched. */
  lemma LoadedUser(nodes: map<NodeKey, Node>, users: seq<Record>, tag: int, now: int, i: int)
    requires 0 <= i < |users|
    ensures var k := KeyOf(UserLabel, users[i]);
      var m := MergedNodes(nodes, UserLabel, users, UserSetFields, tag, now);
      var last := users[LastIndex(users, k.id)];
      && k in m
      && i <= LastIndex(users, k.id)
      && m[k].lastupdated == tag
      && m[k].firstseen == (if k in nodes then nodes[k].firstseen else now)
      && (forall f :: f in UserSetFields ==> (f in m[k].props <==> Get(last, f) != Null))
      && (forall f :: f in UserSetFields && f in m[k].props ==> m[k].props[f] == Get(last, f))
    ensures forall k :: k in nodes && k.nodeLabel != UserLabel ==>
      k in MergedNodes(nodes, UserLabel, users, UserSetFields, tag, now) &&
      MergedNodes(nodes, UserLabel, users, UserSetFields, tag, now)[k] == nodes[k]
  {
    MergedNodesAt(nodes, UserLabel, users, UserSetFields, tag, now);
    var k := KeyOf(UserLabel, users[i]);
    assert k in BatchKeys(UserLabel, users);
  }

  /** Loading the same users twice with one tag gives the graph one load gives. */
  lemma ReloadUsersIdempotent(nodes: map<NodeKey, Node>, users: seq<Record>, tag: int, now: int, later: int)
    ensures MergedNodes(MergedNodes(nodes, UserLabel, users, UserSetFields, tag, now), UserLabel, users, UserSetFields, tag, later)
         == MergedNodes(nodes, UserLabel, users, UserSetFields, tag, now)
  {
    MergedNodesIdempotent(nodes, UserLabel, users, UserSetFields, tag, now, later);
  }

  // ---------------------------------------------------------------------------
  // MEMBER_OF loader
  // ---------------------------------------------------------------------------

  /** `member.id` for every member, in order. */
  function MemberIds(members: seq<Record>): (r: seq<Value>)
    ensures |r| == |members| && forall j :: 0 <= j < |members| ==> r[j] == Get(members[j], "id")
  {
    seq(|members|, j requires 0 <= j < |members| => Get(members[j], "id"))
  }

  /** Whether the loop reaches the MERGE statement for this group. */
  predicate Processed(membersOf: map<Value, seq<Record>>, group: Record)
  {
    Truthy(Get(group, "id")) && Fetched(membersOf, Get(group, "id")) != []
  }

  /** The edges after the statements for the given groups, in order. Each
      group's statement reads its own clock: `nows[i]` is what `timestamp()`
      returns in the statement for `groups[i]`. */
  function MembershipEdges(nodes: map<NodeKey, Node>, edges: map<EdgeKey, Edge>, groups: seq<Record>,
                           membersOf: map<Value, seq<Record>>, tag: int, nows: seq<int>): map<EdgeKey, Edge>
    requires |nows| == |groups|
    decreases |groups|
  {
    if groups == [] then edges
    else
      var n := |groups| - 1;
      var acc := MembershipEdges(nodes, edges, groups[..n], membersOf, tag, nows[..n]);
      var group := groups[n];
      if !Processed(membersOf, group) then acc
      else
        var gid := Get(group, "id");
        MergedEdges(nodes, acc, UserLabel, MemberOf, NodeKey(GroupLabel, gid),
                    MemberIds(Fetched(membersOf, gid)), tag, nows[n])
  }

  /** The MEMBER_OF keys one group's statement matches. */
  function GroupMembershipKeys(nodes: map<NodeKey, Node>, membersOf: map<Value, seq<Record>>, group: Record): set<EdgeKey>
  {
    var tgt := NodeKey(GroupLabel, Get(group, "id"));
    if Processed(membersOf, group) && Matches(nodes, tgt)
    then MatchedKeys(nodes, UserLabel, MemberOf, tgt, MemberIds(Fetched(membersOf, Get(group, "id"))))
    else {}
  }

  function MembershipKeys(nodes: map<NodeKey, Node>, groups: seq<Record>, membersOf: map<Value, seq<Record>>): set<EdgeKey>
    decreases |groups|
  {
    if groups == [] then {}
    else MembershipKeys(nodes, groups[..|groups| - 1], membersOf) + GroupMembershipKeys(nodes, membersOf, groups[|groups| - 1])
  }

  /** Every group's statement contributes its keys to the loader's. */
  lemma {:induction false} GroupKeysIncluded(nodes: map<NodeKey, Node>, groups: seq<Record>,
                                             membersOf: map<Value, seq<Record>>, j: int)
    requires 0 <= j < |groups|
    ensures GroupMembershipKeys(nodes, membersOf, groups[j]) <= MembershipKeys(nodes, groups, membersOf)
    decreases |groups|
  {
    var n := |groups| - 1;
    if j < n {
      assert groups[..n][j] == groups[j];
      GroupKeysIncluded(nodes, groups[..n], membersOf, j);
    }
  }

  /** The clock of the statement that creates the edge `e`: the first one that
      matches it. Only meaningful for a key the loader adds; 0 otherwise. */
  function CreatedAt(nodes: map<NodeKey, Node>, groups: seq<Record>, membersOf: map<Value, seq<Record>>,
                     nows: seq<int>, e: EdgeKey): int
    requires |nows| == |groups|
    decreases |groups|
  {
    if groups == [] then 0
    else
      var n := |groups| - 1;
      if e in MembershipKeys(nodes, groups[..n], membersOf) then CreatedAt(nodes, groups[..n], membersOf, nows[..n], e)
      else nows[n]
  }

  /** A key the earlier groups already add keeps the clock they give it. */
  lemma CreatedAtEarlier(nodes: map<NodeKey, Node>, groups: seq<Record>, membersOf: map<Value, seq<Record>>,
                         nows: seq<int>, e: EdgeKey, n: int, v: int)
    requires |nows| == |groups| && n == |groups| - 1 >= 0
    requires e in MembershipKeys(nodes, groups[..n], membersOf)
    requires CreatedAt(nodes, groups[..n], membersOf, nows[..n], e) == v
    ensures CreatedAt(nodes, groups, membersOf, nows, e) == v
  {
  }

  /** A key the earlier groups do not add gets the clock of the last group. */
  lemma CreatedAtLast(nodes: map<NodeKey, Node>, groups: seq<Record>, membersOf: map<Value, seq<Record>>,
                      nows: seq<int>, e: EdgeKey, n: int)
    requires |nows| == |groups| && n == |groups| - 1 >= 0
    requires e !in MembershipKeys(nodes, groups[..n], membersOf)
    ensures CreatedAt(nodes, groups, membersOf, nows, e) == nows[n]
  {
  }

  /** A key no group's statement matches is not among the loader's keys. */
  lemma {:induction false} UnmatchedKeyAbsent(nodes: map<NodeKey, Node>, groups: seq<Record>,
                                              membersOf: map<Value, seq<Record>>, e: EdgeKey)
    requires forall j :: 0 <= j < |groups| ==> e !in GroupMembershipKeys(nodes, membersOf, groups[j])
    ensures e !in MembershipKeys(nodes, groups, membersOf)
    decreases |groups|
  {
    if groups != [] {
      var n := |groups| - 1;
      var pre := groups[..n];
      forall j | 0 <= j < n ensures e !in GroupMembershipKeys(nodes, membersOf, pre[j]) {
        assert pre[j] == groups[j];
      }
      UnmatchedKeyAbsent(nodes, pre, membersOf, e);
    }
  }

  /** A key no statement among the first `k` groups matches is not among the
      keys of those groups. */
  lemma NoEarlierMatch(nodes: map<NodeKey, Node>, groups: seq<Record>, membersOf: map<Value, seq<Record>>,
                       e: EdgeKey, k: int)
    requires 0 <= k <= |groups|
    requires forall j :: 0 <= j < k ==> e !in GroupMembershipKeys(nodes, membersOf, groups[j])
    ensures e !in MembershipKeys(nodes, groups[..k], membersOf)
  {
    var pre := groups[..k];
    forall j | 0 <= j < k ensures e !in GroupMembershipKeys(nodes, membersOf, pre[j]) {
      assert pre[j] == groups[j];
    }
    UnmatchedKeyAbsent(nodes, pre, membersOf, e);
  }

  /** The induction behind `CreatedAtFirst`, with "no earlier group matches"
      stated on the keys of the earlier groups. */
  lemma {:induction false} CreatedAtOf(nodes: map<NodeKey, Node>, groups: seq<Record>,
                                       membersOf: map<Value, seq<Record>>, nows: seq<int>, e: EdgeKey, i: int)
    requires |nows| == |groups| && 0 <= i < |groups|
    requires e in GroupMembershipKeys(nodes, membersOf, groups[i])
    requires e !in MembershipKeys(nodes, groups[..i], membersOf)
    ensures e in MembershipKeys(nodes, groups, membersOf)
    ensures CreatedAt(nodes, groups, membersOf, nows, e) == nows[i]
    decreases |groups|
  {
    assert e in MembershipKeys(nodes, groups, membersOf) by {
      GroupKeysIncluded(nodes, groups, membersOf, i);
    }
    var n := |groups| - 1;
    var pre, early := groups[..n], nows[..n];
    if i < n {
      assert pre[..i] == groups[..i] && pre[i] == groups[i] && early[i] == nows[i];
      CreatedAtOf(nodes, pre, membersOf, early, e, i);
      CreatedAtEarlier(nodes, groups, membersOf, nows, e, n, nows[i]);
    } else {
      assert pre == groups[..i];
      CreatedAtLast(nodes, groups, membersOf, nows, e, n);
    }
  }

  /** When `groups[i]` is the first group whose statement matches `e`, the
      loader adds `e` and, if it creates it, with the clock of that statement. */
  lemma CreatedAtFirst(nodes: map<NodeKey, Node>, groups: seq<Record>,
                       membersOf: map<Value, seq<Record>>, nows: seq<int>, e: EdgeKey, i: int)
    requires |nows| == |groups| && 0 <= i < |groups|
    requires e in GroupMembershipKeys(nodes, membersOf, groups[i])
    requires forall j :: 0 <= j < i ==> e !in GroupMembershipKeys(nodes, membersOf, groups[j])
    ensures e in MembershipKeys(nodes, groups, membersOf)
    ensures CreatedAt(nodes, groups, membersOf, nows, e) == nows[i]
  {
    NoEarlierMatch(nodes, groups, membersOf, e, i);
    CreatedAtOf(nodes, groups, membersOf, nows, e, i);
  }

  /** `load_o365_user_group_relationships`: skips a group with a falsy id or
      no members, and otherwise runs one statement for the group. */
  method LoadO365UserGroupRelationships(g: Graph, groups: seq<Record>, membersOf: map<Value, seq<Record>>,
                                        tag: int, nows: seq<int>)
    requires |nows| == |groups|
    modifies g
    ensures g.nodes == old(g.nodes)
    ensures g.edges == MembershipEdges(old(g.nodes), old(g.edges), groups, membersOf, tag, nows)
  {
    for i := 0 to |groups|
      invariant g.nodes == old(g.nodes)
      invariant g.edges == MembershipEdges(old(g.nodes), old(g.edges), groups[..i], membersOf, tag, nows[..i])
    {
      assert groups[..i + 1][..i] == groups[..i] && nows[..i + 1][..i] == nows[..i];
      var groupId := Get(groups[i], "id");
      if !Truthy(groupId) {
        continue;
      }
      var members := Fetched(membersOf, groupId);
      if members == [] {
        continue;
      }
      g.MatchMergeEdges(UserLabel, MemberOf, NodeKey(GroupLabel, groupId), MemberIds(members), tag, nows[i]);
    }
    assert groups[..|groups|] == groups && nows[..|nows|] == nows;
  }

  /** After the loader: the old edges plus the matched MEMBER_OF edges, each
      from an existing O365User to an existing O365Group; a matched edge keeps
      its `firstseen` (or, when created, gets the clock of the statement that
      created it) and is tagged; every other edge is untouched. */
  lemma {:induction false} MembershipEdgesAt(nodes: map<NodeKey, Node>, edges: map<EdgeKey, Edge>, groups: seq<Record>,
                                             membersOf: map<Value, seq<Record>>, tag: int, nows: seq<int>)
    requires |nows| == |groups|
    ensures forall e :: e in MembershipEdges(nodes, edges, groups, membersOf, tag, nows) <==>
      e in edges || e in MembershipKeys(nodes, groups, membersOf)
    ensures forall e :: e in edges && e !in MembershipKeys(nodes, groups, membersOf) ==>
      MembershipEdges(nodes, edges, groups, membersOf, tag, nows)[e] == edges[e]
    ensures forall e :: e in MembershipKeys(nodes, groups, membersOf) ==>
      && MembershipEdges(nodes, edges, groups, membersOf, tag, nows)[e] ==
         Edge(if e in edges then edges[e].firstseen else CreatedAt(nodes, groups, membersOf, nows, e), tag)
      && e.src.nodeLabel == UserLabel && e.relType == MemberOf && e.tgt.nodeLabel == GroupLabel
      && Matches(nodes, e.src) && Matches(nodes, e.tgt)
    decreases |groups|
  {
    if groups != [] {
      var n := |groups| - 1;
      var pre, group := groups[..n], groups[n];
      MembershipEdgesAt(nodes, edges, pre, membersOf, tag, nows[..n]);
      if Processed(membersOf, group) {
        var gid := Get(group, "id");
        var acc := MembershipEdges(nodes, edges, pre, membersOf, tag, nows[..n]);
        MergedEdgesAt(nodes, acc, UserLabel, MemberOf, NodeKey(GroupLabel, gid),
                      MemberIds(Fetched(membersOf, gid)), tag, nows[n]);
      }
    }
  }

  /** Every member with an id whose user node exists, of every group with a
      truthy id whose group node exists, ends up linked by a tagged MEMBER_OF edge. */
  lemma {:induction false} MembershipComplete(nodes: map<NodeKey, Node>, groups: seq<Record>,
                                              membersOf: map<Value, seq<Record>>, i: int, j: int)
    requires 0 <= i < |groups| && Truthy(Get(groups[i], "id"))
    requires 0 <= j < |Fetched(membersOf, Get(groups[i], "id"))|
    requires Matches(nodes, NodeKey(GroupLabel, Get(groups[i], "id")))
    requires Matches(nodes, NodeKey(UserLabel, Get(Fetched(membersOf, Get(groups[i], "id"))[j], "id")))
    ensures EdgeKey(NodeKey(UserLabel, Get(Fetched(membersOf, Get(groups[i], "id"))[j], "id")), MemberOf,
                    NodeKey(GroupLabel, Get(groups[i], "id"))) in MembershipKeys(nodes, groups, membersOf)
    decreases |groups|
  {
    var pre := groups[..|groups| - 1];
    if i == |groups| - 1 {
      var ids := MemberIds(Fetched(membersOf, Get(groups[i], "id")));
      assert ids[j] == Get(Fetched(membersOf, Get(groups[i], "id"))[j], "id");
    } else {
      assert pre[i] == groups[i];
      MembershipComplete(nodes, pre, membersOf, i, j);
    }
  }

  /** A MEMBER_OF key the loader adds always comes from a group with a truthy id
      and a non-empty member list: skipped groups contribute nothing. */
  lemma {:induction false} MembershipKeysSound(nodes: map<NodeKey, Node>, groups: seq<Record>,
                                               membersOf: map<Value, seq<Record>>, e: EdgeKey)
    requires e in MembershipKeys(nodes, groups, membersOf)
    ensures exists i ::
      && 0 <= i < |groups|
      && Processed(membersOf, groups[i])
      && e.tgt == NodeKey(GroupLabel, Get(groups[i], "id"))
      && e.src.id in MemberIds(Fetched(membersOf, Get(groups[i], "id")))
    decreases |groups|
  {
    var pre, group := groups[..|groups| - 1], groups[|groups| - 1];
    if e in GroupMembershipKeys(nodes, membersOf, group) {
      var ids := MemberIds(Fetched(membersOf, Get(group, "id")));
      var j :| 0 <= j < |ids| && Matches(nodes, NodeKey(UserLabel, ids[j])) &&
        e == EdgeKey(NodeKey(UserLabel, ids[j]), MemberOf, NodeKey(GroupLabel, Get(group, "id")));
      assert groups[|groups| - 1] == group;
    } else {
      MembershipKeysSound(nodes, pre, membersOf, e);
      var i :| 0 <= i < |pre| && Processed(membersOf, pre[i]) &&
        e.tgt == NodeKey(GroupLabel, Get(pre[i], "id")) &&
        e.src.id in MemberIds(Fetched(membersOf, Get(pre[i], "id")));
      assert groups[i] == pre[i];
    }
  }

  /** The loader creates no node and leaves no dangling edge. */
  lemma MembershipEdgesValid(g: GraphState, groups: seq<Record>, membersOf: map<Value, seq<Record>>, tag: int, nows: seq<int>)
    requires Valid(g) && |nows| == |groups|
    ensures Valid(GraphState(g.nodes, MembershipEdges(g.nodes, g.edges, groups, membersOf, tag, nows)))
  {
    MembershipEdgesAt(g.nodes, g.edges, groups, membersOf, tag, nows);
  }

  // ---------------------------------------------------------------------------
  // Cleanup
  // ---------------------------------------------------------------------------

  /** The four statements of `run_cleanup_jobs`, in order. */
  const CleanupJobs: seq<CleanupJob> := [
    DetachDeleteStale(UserLabel),
    DetachDeleteStale(GroupLabel),
    DetachDeleteStale(OULabel),
    DeleteStaleEdges(UserLabel, MemberOf, GroupLabel)
  ]

  /** `run_cleanup_jobs`: each statement through `run_cleanup_job`. */
  method RunCleanupJobs(g: Graph, tag: int)
    modifies g
    ensures g.State() == RunJobs(old(g.State()), CleanupJobs, tag)
  {
    ghost var s0 := g.State();
    g.RunCleanupJob(DetachDeleteStale(UserLabel), tag);
    ghost var s1 := g.State();
    g.RunCleanupJob(DetachDeleteStale(GroupLabel), tag);
    ghost var s2 := g.State();
    g.RunCleanupJob(DetachDeleteStale(OULabel), tag);
    ghost var s3 := g.State();
    g.RunCleanupJob(DeleteStaleEdges(UserLabel, MemberOf, GroupLabel), tag);
    assert RunJobs(s3, CleanupJobs[3..], tag) == g.State();
    assert RunJobs(s2, CleanupJobs[2..], tag) == g.State();
    assert RunJobs(s1, CleanupJobs[1..], tag) == g.State();
  }

  lemma CleanupSweeps()
    ensures SweptLabels(CleanupJobs) == {UserLabel, GroupLabel, OULabel}
  {
    var edgeJob := DeleteStaleEdges(UserLabel, MemberOf, GroupLabel);
    assert [edgeJob][1..] == [];
    assert SweptLabels([edgeJob]) == {};
    assert [DetachDeleteStale(OULabel), edgeJob][1..] == [edgeJob];
    assert SweptLabels([DetachDeleteStale(OULabel), edgeJob]) == {OULabel};
    assert [DetachDeleteStale(GroupLabel), DetachDeleteStale(OULabel), edgeJob][1..] == [DetachDeleteStale(OULabel), edgeJob];
    assert SweptLabels([DetachDeleteStale(GroupLabel), DetachDeleteStale(OULabel), edgeJob]) == {GroupLabel, OULabel};
    assert CleanupJobs[1..] == [DetachDeleteStale(GroupLabel), DetachDeleteStale(OULabel), edgeJob];
  }

  /** After cleanup no O365 node and no MEMBER_OF edge carries another tag. */
  lemma CleanupLeavesNothingStale(g: GraphState, tag: int)
    ensures forall k :: k in RunJobs(g, CleanupJobs, tag).nodes && k.nodeLabel in {UserLabel, GroupLabel, OULabel} ==>
      RunJobs(g, CleanupJobs, tag).nodes[k].lastupdated == tag
    ensures forall e ::
      (e in RunJobs(g, CleanupJobs, tag).edges &&
       e.src.nodeLabel == UserLabel && e.relType == MemberOf && e.tgt.nodeLabel == GroupLabel) ==>
      RunJobs(g, CleanupJobs, tag).edges[e].lastupdated == tag
  {
    RunJobsAt(g, CleanupJobs, tag);
    CleanupSweeps();
    assert DeleteStaleEdges(UserLabel, MemberOf, GroupLabel) in CleanupJobs;
  }

  /** Cleanup keeps every node tagged with the run tag, every node of another
      label, and every tagged edge whose ends are both kept; it leaves no edge
      touching a deleted node. */
  lemma CleanupKeepsCurrent(g: GraphState, tag: int)
    ensures forall k ::
      (k in g.nodes && (g.nodes[k].lastupdated == tag || k.nodeLabel !in {UserLabel, GroupLabel, OULabel})) ==>
      k in RunJobs(g, CleanupJobs, tag).nodes && RunJobs(g, CleanupJobs, tag).nodes[k] == g.nodes[k]
    ensures forall e ::
      (e in g.edges && g.edges[e].lastupdated == tag &&
       e.src in RunJobs(g, CleanupJobs, tag).nodes && e.tgt in RunJobs(g, CleanupJobs, tag).nodes) ==>
      e in RunJobs(g, CleanupJobs, tag).edges
    ensures Valid(g) ==> Valid(RunJobs(g, CleanupJobs, tag))
  {
    RunJobsAt(g, CleanupJobs, tag);
    CleanupSweeps();
  }

  /** Running the cleanup again with the same tag deletes nothing. */
  lemma CleanupIdempotent(g: GraphState, tag: int)
    ensures RunJobs(RunJobs(g, CleanupJobs, tag), CleanupJobs, tag) == RunJobs(g, CleanupJobs, tag)
  {
    RunJobsIdempotent(g, CleanupJobs, tag);
  }

  // ---------------------------------------------------------------------------
  // A whole run
  // ---------------------------------------------------------------------------

  /** The graph statements of one sync, in the order the run issues them:
      the user, group and OU loads, the MEMBER_OF loader and the cleanup (the
      OU relationship loader issues nothing). A load that meets a null id
      raises after rolling back its own statement; the orchestrator re-raises,
      so no later statement runs and the graph is left as the earlier loads
      made it. */
  function SyncGraph(g: GraphState, users: seq<Record>, groups: seq<Record>, ous: seq<Record>,
                     membersOf: map<Value, seq<Record>>, tag: int,
                     nowUsers: int, nowGroups: int, nowOus: int, nows: seq<int>): GraphState
    requires |nows| == |groups|
  {
    var g1 := AfterMergeNodes(g, UserLabel, users, UserSetFields, tag, nowUsers);
    var g2 := AfterMergeNodes(g1, GroupLabel, groups, GroupSetFields, tag, nowGroups);
    var g3 := AfterMergeNodes(g2, OULabel, ous, OUSetFields, tag, nowOus);
    if !AllIdsPresent(users) then g
    else if !AllIdsPresent(groups) then g1
    else if !AllIdsPresent(ous) then g2
    else RunJobs(GraphState(g3.nodes, MembershipEdges(g3.nodes, g3.edges, groups, membersOf, tag, nows)), CleanupJobs, tag)
  }

  /** A sync from a valid graph ends in a valid graph. When every batch has
      its ids, the sync reaches the cleanup and afterwards every O365 node and
      every MEMBER_OF edge carries the run's tag. */
  lemma SyncKeepsValid(g: GraphState, users: seq<Record>, groups: seq<Record>, ous: seq<Record>,
                       membersOf: map<Value, seq<Record>>, tag: int,
                       nowUsers: int, nowGroups: int, nowOus: int, nows: seq<int>)
    requires Valid(g) && |nows| == |groups|
    ensures var r := SyncGraph(g, users, groups, ous, membersOf, tag, nowUsers, nowGroups, nowOus, nows);
      && Valid(r)
      && (AllIdsPresent(users) && AllIdsPresent(groups) && AllIdsPresent(ous) ==>
            && (forall k :: k in r.nodes && k.nodeLabel in {UserLabel, GroupLabel, OULabel} ==> r.nodes[k].lastupdated == tag)
            && (forall e :: e in r.edges && e.relType == MemberOf && e.src.nodeLabel == UserLabel && e.tgt.nodeLabel == GroupLabel ==>
                  r.edges[e].lastupdated == tag))
  {
    var g1 := AfterMergeNodes(g, UserLabel, users, UserSetFields, tag, nowUsers);
    if AllIdsPresent(users) {
      MergedNodesValid(g, UserLabel, users, UserSetFields, tag, nowUsers);
      var g2 := AfterMergeNodes(g1, GroupLabel, groups, GroupSetFields, tag, nowGroups);
      if AllIdsPresent(groups) {
        MergedNodesValid(g1, GroupLabel, groups, GroupSetFields, tag, nowGroups);
        var g3 := AfterMergeNodes(g2, OULabel, ous, OUSetFields, tag, nowOus);
        if AllIdsPresent(ous) {
          MergedNodesValid(g2, OULabel, ous, OUSetFields, tag, nowOus);
          var g4 := GraphState(g3.nodes, MembershipEdges(g3.nodes, g3.edges, groups, membersOf, tag, nows));
          MembershipEdgesValid(g3, groups, membersOf, tag, nows);
          CleanupKeepsCurrent(g4, tag);
          CleanupLeavesNothingStale(g4, tag);
        }
      }
    }
  }

  /** A sync that meets a null id in one of its batches stops there: no edge
      is touched and no node is deleted, so nothing is swept. */
  lemma SyncAbortKeepsGraph(g: GraphState, users: seq<Record>, groups: seq<Record>, ous: seq<Record>,
                            membersOf: map<Value, seq<Record>>, tag: int,
                            nowUsers: int, nowGroups: int, nowOus: int, nows: seq<int>)
    requires |nows| == |groups|
    requires !(AllIdsPresent(users) && AllIdsPresent(groups) && AllIdsPresent(ous))
    ensures var r := SyncGraph(g, users, groups, ous, membersOf, tag, nowUsers, nowGroups, nowOus, nows);
      && r.edges == g.edges
      && (forall k :: k in g.nodes ==> k in r.nodes)
      && (!AllIdsPresent(users) ==> r == g)
  {
    var g1 := AfterMergeNodes(g, UserLabel, users, UserSetFields, tag, nowUsers);
    if AllIdsPresent(users) {
      MergedNodesAt(g.nodes, UserLabel, users, UserSetFields, tag, nowUsers);
      if AllIdsPresent(groups) {
        MergedNodesAt(g1.nodes, GroupLabel, groups, GroupSetFields, tag, nowGroups);
      }
    }
  }
}
