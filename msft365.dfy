/**
 * The Msft365 connector (intel/msft365/msft365.py): the transforms, the
 * `lastupdated` stamping of node batches, the relationship-record builders and
 * the cleanup job list. The loaders hand their batches to a generic schema
 * loader whose effect on the graph is not part of this model, so the model
 * stops at the batch (a `NodeLoad` or `RelLoad`) each call hands over.
 */
module Msft365 {
  import opened Records
  import opened SchemaTypes
  import Msft365UserModel
  import Msft365GroupModel
  import Msft365OUModel
  import Msft365DeviceModel

  // ---------------------------------------------------------------------------
  // Transforms
  // ---------------------------------------------------------------------------

  /** `transform_users`: one record per user, in order, with exactly the six
      user fields, each read with `.get`. */
  function TransformUsers(users: seq<Record>): (r: seq<Record>)
    ensures |r| == |users|
    ensures forall i, f :: 0 <= i < |r| ==> (f in r[i] <==> f in UserFields)
    ensures forall i, f :: 0 <= i < |r| && f in UserFields ==> f in r[i] && r[i][f] == Get(users[i], f)
  {
    ProjectAll(users, UserFields)
  }

  /** `transform_groups`: the four group fields. */
  function TransformGroups(groups: seq<Record>): (r: seq<Record>)
    ensures |r| == |groups|
    ensures forall i, f :: 0 <= i < |r| ==> (f in r[i] <==> f in GroupFields)
    ensures forall i, f :: 0 <= i < |r| && f in GroupFields ==> f in r[i] && r[i][f] == Get(groups[i], f)
  {
    ProjectAll(groups, GroupFields)
  }

  /** `transform_ous`: the three OU fields. */
  function TransformOus(units: seq<Record>): (r: seq<Record>)
    ensures |r| == |units|
    ensures forall i, f :: 0 <= i < |r| ==> (f in r[i] <==> f in OUFields)
    ensures forall i, f :: 0 <= i < |r| && f in OUFields ==> f in r[i] && r[i][f] == Get(units[i], f)
  {
    ProjectAll(units, OUFields)
  }

  /** The keys `transform_devices` writes. */
  const DeviceFields: seq<string> := ["id", "displayName", "os", "deviceOwnership", "lastSignIn", "isCompliant"]

  function TransformDevice(d: Record): Record
  {
    map[
      "id" := Get(d, "id"),
      "displayName" := Get(d, "displayName"),
      "os" := Get(d, "operatingSystem"),
      "deviceOwnership" := Get(d, "deviceOwnership"),
      "lastSignIn" := Get(d, "approximateLastSignInDateTime"),
      "isCompliant" := GetOr(d, "isCompliant", Bool(false))
    ]
  }

  /** `transform_devices`: renames `operatingSystem` to `os` and
      `approximateLastSignInDateTime` to `lastSignIn`; `isCompliant` is False
      only when the API omitted the key. */
  function TransformDevices(devices: seq<Record>): (r: seq<Record>)
    ensures |r| == |devices|
    ensures forall i, f :: 0 <= i < |r| ==> (f in r[i] <==> f in DeviceFields)
    ensures forall i :: 0 <= i < |r| ==>
      && Get(r[i], "os") == Get(devices[i], "operatingSystem")
      && Get(r[i], "lastSignIn") == Get(devices[i], "approximateLastSignInDateTime")
      && (forall f :: f in ["id", "displayName", "deviceOwnership"] ==> Get(r[i], f) == Get(devices[i], f))
      && ("isCompliant" !in devices[i] ==> Get(r[i], "isCompliant") == Bool(false))
      && ("isCompliant" in devices[i] ==> Get(r[i], "isCompliant") == devices[i]["isCompliant"])
  {
    seq(|devices|, i requires 0 <= i < |devices| => TransformDevice(devices[i]))
  }

  // ---------------------------------------------------------------------------
  // Node batches
  // ---------------------------------------------------------------------------

  /** `{**r, "lastupdated": update_tag}` for every record. */
  function Stamp(records: seq<Record>, tag: Value): (r: seq<Record>)
    ensures |r| == |records|
    ensures forall i :: 0 <= i < |r| ==> r[i].Keys == records[i].Keys + {"lastupdated"} && r[i]["lastupdated"] == tag
    ensures forall i, k :: 0 <= i < |r| && k in records[i] && k != "lastupdated" ==> r[i][k] == records[i][k]
  {
    seq(|records|, i requires 0 <= i < |records| => records[i]["lastupdated" := tag])
  }

  /** What a loader hands to the generic node loader. */
  datatype NodeLoad = NodeLoad(schema: NodeSchema, data: seq<Record>, tag: Value)

  /** `load_Msft365_users`. */
  function LoadMsft365Users(users: seq<Record>, tag: Value): (r: NodeLoad)
    ensures r.schema == Msft365UserModel.UserSchema && r.tag == tag
    ensures |r.data| == |users|
    ensures forall i :: 0 <= i < |users| ==>
      r.data[i].Keys == users[i].Keys + {"lastupdated"} && r.data[i]["lastupdated"] == tag
    ensures forall i, k :: 0 <= i < |users| && k in users[i] && k != "lastupdated" ==> r.data[i][k] == users[i][k]
  {
    NodeLoad(Msft365UserModel.UserSchema, Stamp(users, tag), tag)
  }

  /** `load_Msft365_groups`. */
  function LoadMsft365Groups(groups: seq<Record>, tag: Value): (r: NodeLoad)
    ensures r.schema == Msft365GroupModel.GroupSchema && r.tag == tag
    ensures |r.data| == |groups|
    ensures forall i :: 0 <= i < |groups| ==>
      r.data[i].Keys == groups[i].Keys + {"lastupdated"} && r.data[i]["lastupdated"] == tag
    ensures forall i, k :: 0 <= i < |groups| && k in groups[i] && k != "lastupdated" ==> r.data[i][k] == groups[i][k]
  {
    NodeLoad(Msft365GroupModel.GroupSchema, Stamp(groups, tag), tag)
  }

  /** `load_Msft365_devices`. */
  function LoadMsft365Devices(devices: seq<Record>, tag: Value): (r: NodeLoad)
    ensures r.schema == Msft365DeviceModel.DeviceSchema && r.tag == tag
    ensures |r.data| == |devices|
    ensures forall i :: 0 <= i < |devices| ==>
      r.data[i].Keys == devices[i].Keys + {"lastupdated"} && r.data[i]["lastupdated"] == tag
    ensures forall i, k :: 0 <= i < |devices| && k in devices[i] && k != "lastupdated" ==> r.data[i][k] == devices[i][k]
  {
    NodeLoad(Msft365DeviceModel.DeviceSchema, Stamp(devices, tag), tag)
  }

  /** `load_Msft365_organizational_units`: nothing is loaded for an empty list. */
  function LoadMsft365OrganizationalUnits(ous: seq<Record>, tag: Value): (r: Option<NodeLoad>)
    ensures r.None? <==> ous == []
    ensures r.Some? ==> r.value.schema == Msft365OUModel.OrganizationalUnitSchema && r.value.tag == tag
    ensures r.Some? ==> |r.value.data| == |ous| && forall i :: 0 <= i < |ous| ==>
      r.value.data[i].Keys == ous[i].Keys + {"lastupdated"} && r.value.data[i]["lastupdated"] == tag
    ensures r.Some? ==> forall i, k :: 0 <= i < |ous| && k in ous[i] && k != "lastupdated" ==>
      r.value.data[i][k] == ous[i][k]
  {
    if ous == [] then None
    else Some(NodeLoad(Msft365OUModel.OrganizationalUnitSchema, Stamp(ous, tag), tag))
  }

  /** A record stamped with the tag meets a schema whose required names are
      `names` followed by `lastupdated` exactly when the record holds a
      non-null value under each of `names` and the tag is non-null. */
  lemma StampedSatisfies(rec: Record, tag: Value, s: NodeSchema, names: seq<string>)
    requires RequiredNames(s.properties) == names + ["lastupdated"]
    requires forall n :: n in names ==> n in rec && n != "lastupdated"
    ensures Satisfies(rec["lastupdated" := tag], s) <==> (forall n :: n in names ==> rec[n] != Null) && tag != Null
  {
    if Satisfies(rec["lastupdated" := tag], s) {
      assert "lastupdated" in RequiredNames(s.properties);
      forall n | n in names ensures rec[n] != Null {
        assert n in RequiredNames(s.properties);
      }
    }
  }

  /** A user batch record meets the user schema the loader names exactly when
      all six user fields and the tag are non-null: `jobTitle` and `department`
      are required there. */
  lemma UserBatchConforms(users: seq<Record>, tag: Value, i: int)
    requires 0 <= i < |users|
    ensures var load := LoadMsft365Users(TransformUsers(users), tag);
      Satisfies(load.data[i], load.schema) <==> (forall f :: f in UserFields ==> Get(users[i], f) != Null) && tag != Null
  {
    Msft365UserModel.UserSchemaProperties();
    assert RequiredNames(Msft365UserModel.UserSchema.properties) == UserFields + ["lastupdated"];
    var rec := Project(users[i], UserFields);
    ProjectShape(users[i], UserFields);
    assert LoadMsft365Users(TransformUsers(users), tag).data[i] == rec["lastupdated" := tag];
    StampedSatisfies(rec, tag, Msft365UserModel.UserSchema, UserFields);
  }

  /** A group batch record meets the group schema the loader names exactly
      when all four group fields (`description` and `mail` included) and the
      tag are non-null. */
  lemma GroupBatchConforms(groups: seq<Record>, tag: Value, i: int)
    requires 0 <= i < |groups|
    ensures var load := LoadMsft365Groups(TransformGroups(groups), tag);
      Satisfies(load.data[i], load.schema) <==> (forall f :: f in GroupFields ==> Get(groups[i], f) != Null) && tag != Null
  {
    Msft365GroupModel.GroupSchemaProperties();
    assert RequiredNames(Msft365GroupModel.GroupSchema.properties) == GroupFields + ["lastupdated"];
    var rec := Project(groups[i], GroupFields);
    ProjectShape(groups[i], GroupFields);
    assert LoadMsft365Groups(TransformGroups(groups), tag).data[i] == rec["lastupdated" := tag];
    StampedSatisfies(rec, tag, Msft365GroupModel.GroupSchema, GroupFields);
  }

  /** An OU batch record meets the OU schema the loader names exactly when all
      three OU fields (`description` included) and the tag are non-null. */
  lemma OUBatchConforms(ous: seq<Record>, tag: Value, i: int)
    requires 0 <= i < |ous|
    ensures var load := LoadMsft365OrganizationalUnits(TransformOus(ous), tag);
      && load.Some?
      && (Satisfies(load.value.data[i], load.value.schema) <==>
            (forall f :: f in OUFields ==> Get(ous[i], f) != Null) && tag != Null)
  {
    Msft365OUModel.OrganizationalUnitSchemaProperties();
    assert RequiredNames(Msft365OUModel.OrganizationalUnitSchema.properties) == OUFields + ["lastupdated"];
    var rec := Project(ous[i], OUFields);
    ProjectShape(ous[i], OUFields);
    assert LoadMsft365OrganizationalUnits(TransformOus(ous), tag).value.data[i] == rec["lastupdated" := tag];
    StampedSatisfies(rec, tag, Msft365OUModel.OrganizationalUnitSchema, OUFields);
  }

  /** As written, no transformed device ever meets the device schema the loader
      names: the schema requires `operatingSystem`, the transform writes `os`. */
  lemma DeviceBatchNeverConforms(devices: seq<Record>, tag: Value, i: int)
    requires 0 <= i < |devices|
    ensures var load := LoadMsft365Devices(TransformDevices(devices), tag);
      !Satisfies(load.data[i], load.schema)
  {
    Msft365DeviceModel.DeviceSchemaProperties();
    var rec := LoadMsft365Devices(TransformDevices(devices), tag).data[i];
    assert "operatingSystem" in RequiredNames(Msft365DeviceModel.DeviceSchema.properties);
    assert "operatingSystem" !in DeviceFields;
    assert "operatingSystem" !in rec;
  }

  /** The schema's required device properties apart from `lastupdated`. */
  const DeviceRequiredFields: seq<string> := ["id", "displayName", "operatingSystem", "deviceOwnership"]

  /** The device transform with the schema's property names: the optional sign-in
      time keeps its API name too, and `isCompliant` its default. */
  function TransformDeviceCorrected(d: Record): (r: Record)
    ensures forall f :: f in DeviceRequiredFields ==> f in r && r[f] == Get(d, f)
    ensures "lastupdated" !in r
  {
    Project(d, DeviceRequiredFields + ["approximateLastSignInDateTime"])["isCompliant" := GetOr(d, "isCompliant", Bool(false))]
  }

  function TransformDevicesCorrected(devices: seq<Record>): (r: seq<Record>)
    ensures |r| == |devices|
    ensures forall i, f :: 0 <= i < |r| && f in DeviceRequiredFields ==> f in r[i] && r[i][f] == Get(devices[i], f)
  {
    seq(|devices|, i requires 0 <= i < |devices| => TransformDeviceCorrected(devices[i]))
  }

  /** With the corrected names a device batch record meets the device schema
      exactly when `id`, `displayName`, `operatingSystem`, `deviceOwnership`
      and the tag are non-null. */
  lemma DeviceBatchCorrectedConforms(devices: seq<Record>, tag: Value, i: int)
    requires 0 <= i < |devices|
    ensures var load := LoadMsft365Devices(TransformDevicesCorrected(devices), tag);
      Satisfies(load.data[i], load.schema) <==>
        (forall f :: f in DeviceRequiredFields ==> Get(devices[i], f) != Null) && tag != Null
  {
    Msft365DeviceModel.DeviceSchemaProperties();
    assert RequiredNames(Msft365DeviceModel.DeviceSchema.properties) == DeviceRequiredFields + ["lastupdated"];
    var rec := TransformDeviceCorrected(devices[i]);
    assert LoadMsft365Devices(TransformDevicesCorrected(devices), tag).data[i] == rec["lastupdated" := tag];
    StampedSatisfies(rec, tag, Msft365DeviceModel.DeviceSchema, DeviceRequiredFields);
  }

  // ---------------------------------------------------------------------------
  // Relationship records
  // ---------------------------------------------------------------------------

  /** A call that either returns or raises KeyError for a missing dictionary key. */
  datatype Outcome<T> = KeyError(key: string) | Ok(value: T)

  /** Results in order: the first error wins. */
  function Then(first: Outcome<seq<Record>>, second: Outcome<seq<Record>>): Outcome<seq<Record>>
  {
    if first.KeyError? then first else if second.KeyError? then second else Ok(first.value + second.value)
  }

  function RelRecord(source: Value, target: Value, tag: Value): Record
  {
    map["source_id" := source, "target_id" := target, "lastupdated" := tag]
  }

  // -- group members -------------------------------------------------------------

  /** The records for one group's members; `member["id"]` raises when absent. */
  function MemberRecords(members: seq<Record>, groupId: Value, tag: Value): Outcome<seq<Record>>
    decreases |members|
  {
    if members == [] then Ok([])
    else
      var m := members[|members| - 1];
      Then(MemberRecords(members[..|members| - 1], groupId, tag),
           if "id" in m then Ok([RelRecord(m["id"], groupId, tag)]) else KeyError("id"))
  }

  /** `group["id"]` is read before the members are fetched. */
  function GroupRecords(group: Record, membersOf: map<Value, seq<Record>>, tag: Value): Outcome<seq<Record>>
  {
    if "id" !in group then KeyError("id")
    else MemberRecords(Fetched(membersOf, group["id"]), group["id"], tag)
  }

  /** The list `load_user_group_relationships` builds, group by group. */
  function UserGroupRelationships(groups: seq<Record>, membersOf: map<Value, seq<Record>>, tag: Value): Outcome<seq<Record>>
    decreases |groups|
  {
    if groups == [] then Ok([])
    else Then(UserGroupRelationships(groups[..|groups| - 1], membersOf, tag),
              GroupRecords(groups[|groups| - 1], membersOf, tag))
  }

  lemma {:induction false} MemberRecordsErrorSticks(members: seq<Record>, groupId: Value, tag: Value, n: int)
    requires 0 <= n <= |members| && MemberRecords(members[..n], groupId, tag).KeyError?
    ensures MemberRecords(members, groupId, tag) == MemberRecords(members[..n], groupId, tag)
    decreases |members|
  {
    if n < |members| {
      assert members[..|members| - 1][..n] == members[..n];
      MemberRecordsErrorSticks(members[..|members| - 1], groupId, tag, n);
    } else {
      assert members[..n] == members;
    }
  }

  lemma {:induction false} UserGroupErrorSticks(groups: seq<Record>, membersOf: map<Value, seq<Record>>, tag: Value, n: int)
    requires 0 <= n <= |groups| && UserGroupRelationships(groups[..n], membersOf, tag).KeyError?
    ensures UserGroupRelationships(groups, membersOf, tag) == UserGroupRelationships(groups[..n], membersOf, tag)
    decreases |groups|
  {
    if n < |groups| {
      assert groups[..|groups| - 1][..n] == groups[..n];
      UserGroupErrorSticks(groups[..|groups| - 1], membersOf, tag, n);
    } else {
      assert groups[..n] == groups;
    }
  }

  /** The generator over one group's members. */
  method BuildMemberRecords(members: seq<Record>, groupId: Value, tag: Value) returns (r: Outcome<seq<Record>>)
    ensures r == MemberRecords(members, groupId, tag)
  {
    var batch: seq<Record> := [];
    for j := 0 to |members|
      invariant MemberRecords(members[..j], groupId, tag) == Ok(batch)
    {
      assert members[..j + 1][..j] == members[..j];
      if "id" !in members[j] {
        MemberRecordsErrorSticks(members, groupId, tag, j + 1);
        return KeyError("id");
      }
      batch := batch + [RelRecord(members[j]["id"], groupId, tag)];
    }
    assert members[..|members|] == members;
    r := Ok(batch);
  }

  /** `load_user_group_relationships` up to the loader call: the loop over the
      groups, extending the list with one record per member. */
  method BuildUserGroupRelationships(groups: seq<Record>, membersOf: map<Value, seq<Record>>, tag: Value)
    returns (r: Outcome<seq<Record>>)
    ensures r == UserGroupRelationships(groups, membersOf, tag)
  {
    var relationships: seq<Record> := [];
    for i := 0 to |groups|
      invariant UserGroupRelationships(groups[..i], membersOf, tag) == Ok(relationships)
    {
      assert groups[..i + 1][..i] == groups[..i];
      if "id" !in groups[i] {
        UserGroupErrorSticks(groups, membersOf, tag, i + 1);
        return KeyError("id");
      }
      var batch := BuildMemberRecords(Fetched(membersOf, groups[i]["id"]), groups[i]["id"], tag);
      if batch.KeyError? {
        UserGroupErrorSticks(groups, membersOf, tag, i + 1);
        return batch;
      }
      relationships := relationships + batch.value;
    }
    assert groups[..|groups|] == groups;
    r := Ok(relationships);
  }

  /** The group has an `id` and so has each of its members. */
  predicate GroupKeyed(group: Record, membersOf: map<Value, seq<Record>>)
  {
    "id" in group && forall m :: m in Fetched(membersOf, group["id"]) ==> "id" in m
  }

  predicate GroupsKeyed(groups: seq<Record>, membersOf: map<Value, seq<Record>>)
  {
    forall i :: 0 <= i < |groups| ==> GroupKeyed(groups[i], membersOf)
  }

  /** The total number of members over the groups. */
  function TotalMembers(groups: seq<Record>, membersOf: map<Value, seq<Record>>): nat
    decreases |groups|
  {
    if groups == [] then 0
    else TotalMembers(groups[..|groups| - 1], membersOf) + |Fetched(membersOf, Get(groups[|groups| - 1], "id"))|
  }

  /** One group's records: present exactly when every member has an `id`,
      and then one per member. */
  lemma {:induction false} MemberRecordsOk(members: seq<Record>, groupId: Value, tag: Value)
    ensures MemberRecords(members, groupId, tag).Ok? <==> forall m :: m in members ==> "id" in m
    ensures MemberRecords(members, groupId, tag).Ok? ==> |MemberRecords(members, groupId, tag).value| == |members|
    decreases |members|
  {
    if members != [] {
      var pre := members[..|members| - 1];
      MemberRecordsOk(pre, groupId, tag);
      assert forall m :: m in members <==> m in pre || m == members[|members| - 1];
    }
  }

  /** Record `j` links member `j` (source) to the group (target). */
  lemma {:induction false} MemberRecordsEntry(members: seq<Record>, groupId: Value, tag: Value, j: int)
    requires MemberRecords(members, groupId, tag).Ok? && 0 <= j < |members|
    ensures "id" in members[j] && j < |MemberRecords(members, groupId, tag).value|
    ensures MemberRecords(members, groupId, tag).value[j] == RelRecord(members[j]["id"], groupId, tag)
    decreases |members|
  {
    var pre := members[..|members| - 1];
    MemberRecordsOk(pre, groupId, tag);
    if j < |pre| {
      assert pre[j] == members[j];
      MemberRecordsEntry(pre, groupId, tag, j);
    }
  }

  /** The builder raises KeyError exactly when some group, or some member of
      a group, lacks an `id`. */
  lemma {:induction false} UserGroupRelationshipsOk(groups: seq<Record>, membersOf: map<Value, seq<Record>>, tag: Value)
    ensures UserGroupRelationships(groups, membersOf, tag).Ok? <==> GroupsKeyed(groups, membersOf)
    decreases |groups|
  {
    if groups != [] {
      var pre, last := groups[..|groups| - 1], groups[|groups| - 1];
      UserGroupRelationshipsOk(pre, membersOf, tag);
      assert GroupRecords(last, membersOf, tag).Ok? <==> GroupKeyed(last, membersOf) by {
        if "id" in last {
          MemberRecordsOk(Fetched(membersOf, last["id"]), last["id"], tag);
        }
      }
      assert GroupsKeyed(groups, membersOf) <==> GroupsKeyed(pre, membersOf) && GroupKeyed(last, membersOf) by {
        assert forall i :: 0 <= i < |pre| ==> pre[i] == groups[i];
      }
    }
  }

  /** One record per member, over all groups. */
  lemma {:induction false} UserGroupRelationshipsLength(groups: seq<Record>, membersOf: map<Value, seq<Record>>, tag: Value)
    requires UserGroupRelationships(groups, membersOf, tag).Ok?
    ensures |UserGroupRelationships(groups, membersOf, tag).value| == TotalMembers(groups, membersOf)
    decreases |groups|
  {
    if groups != [] {
      var last := groups[|groups| - 1];
      UserGroupRelationshipsLength(groups[..|groups| - 1], membersOf, tag);
      MemberRecordsOk(Fetched(membersOf, last["id"]), last["id"], tag);
    }
  }

  /** The records of the first `n` groups come first. */
  lemma {:induction false} UserGroupRelationshipsPrefix(groups: seq<Record>, membersOf: map<Value, seq<Record>>, tag: Value, n: int)
    requires UserGroupRelationships(groups, membersOf, tag).Ok? && 0 <= n <= |groups|
    ensures UserGroupRelationships(groups[..n], membersOf, tag).Ok?
    ensures UserGroupRelationships(groups[..n], membersOf, tag).value <= UserGroupRelationships(groups, membersOf, tag).value
    decreases |groups|
  {
    if n < |groups| {
      var pre := groups[..|groups| - 1];
      assert pre[..n] == groups[..n];
      UserGroupRelationshipsPrefix(pre, membersOf, tag, n);
    } else {
      assert groups[..n] == groups;
    }
  }

  /** Member `j` of group `i` sits after the members of the groups before `i`,
      linked (source) to that group (target) under the tag. */
  lemma UserGroupRelationshipsEntry(groups: seq<Record>, membersOf: map<Value, seq<Record>>, tag: Value, i: int, j: int)
    requires UserGroupRelationships(groups, membersOf, tag).Ok?
    requires 0 <= i < |groups| && "id" in groups[i] && 0 <= j < |Fetched(membersOf, groups[i]["id"])|
    ensures "id" in Fetched(membersOf, groups[i]["id"])[j]
    ensures TotalMembers(groups[..i], membersOf) + j < |UserGroupRelationships(groups, membersOf, tag).value|
    ensures UserGroupRelationships(groups, membersOf, tag).value[TotalMembers(groups[..i], membersOf) + j] ==
      RelRecord(Fetched(membersOf, groups[i]["id"])[j]["id"], groups[i]["id"], tag)
  {
    var upto := groups[..i + 1];
    var members := Fetched(membersOf, groups[i]["id"]);
    UserGroupRelationshipsPrefix(groups, membersOf, tag, i + 1);
    assert upto[..i] == groups[..i] && upto[i] == groups[i];
    var acc := UserGroupRelationships(groups[..i], membersOf, tag).value;
    assert UserGroupRelationships(upto, membersOf, tag).value == acc + MemberRecords(members, groups[i]["id"], tag).value;
    UserGroupRelationshipsLength(groups[..i], membersOf, tag);
    MemberRecordsEntry(members, groups[i]["id"], tag, j);
  }

  // -- device owners -----------------------------------------------------------

  const UserODataType: string := "#microsoft.graph.user"

  /** Only owners typed as users produce a record. */
  predicate UserOwner(owner: Record)
  {
    "@odata.type" in owner && owner["@odata.type"] == Str(UserODataType)
  }

  /** The records for one device's owners: `owner["@odata.type"]` is read for
      every owner, `owner["id"]` only for user owners; either raises when absent. */
  function OwnerRecords(owners: seq<Record>, deviceId: Value, tag: Value): Outcome<seq<Record>>
    decreases |owners|
  {
    if owners == [] then Ok([])
    else
      var o := owners[|owners| - 1];
      Then(OwnerRecords(owners[..|owners| - 1], deviceId, tag),
           if "@odata.type" !in o then KeyError("@odata.type")
           else if !UserOwner(o) then Ok([])
           else if "id" !in o then KeyError("id")
           else Ok([RelRecord(o["id"], deviceId, tag)]))
  }

  /** `device["id"]` is read before the owners are fetched. */
  function DeviceRecords(device: Record, ownersOf: map<Value, seq<Record>>, tag: Value): Outcome<seq<Record>>
  {
    if "id" !in device then KeyError("id")
    else OwnerRecords(Fetched(ownersOf, device["id"]), device["id"], tag)
  }

  /** The list `load_user_device_relationships` builds, device by device. */
  function UserDeviceRelationships(devices: seq<Record>, ownersOf: map<Value, seq<Record>>, tag: Value): Outcome<seq<Record>>
    decreases |devices|
  {
    if devices == [] then Ok([])
    else Then(UserDeviceRelationships(devices[..|devices| - 1], ownersOf, tag),
              DeviceRecords(devices[|devices| - 1], ownersOf, tag))
  }

  lemma {:induction false} OwnerRecordsErrorSticks(owners: seq<Record>, deviceId: Value, tag: Value, n: int)
    requires 0 <= n <= |owners| && OwnerRecords(owners[..n], deviceId, tag).KeyError?
    ensures OwnerRecords(owners, deviceId, tag) == OwnerRecords(owners[..n], deviceId, tag)
    decreases |owners|
  {
    if n < |owners| {
      assert owners[..|owners| - 1][..n] == owners[..n];
      OwnerRecordsErrorSticks(owners[..|owners| - 1], deviceId, tag, n);
    } else {
      assert owners[..n] == owners;
    }
  }

  lemma {:induction false} UserDeviceErrorSticks(devices: seq<Record>, ownersOf: map<Value, seq<Record>>, tag: Value, n: int)
    requires 0 <= n <= |devices| && UserDeviceRelationships(devices[..n], ownersOf, tag).KeyError?
    ensures UserDeviceRelationships(devices, ownersOf, tag) == UserDeviceRelationships(devices[..n], ownersOf, tag)
    decreases |devices|
  {
    if n < |devices| {
      assert devices[..|devices| - 1][..n] == devices[..n];
      UserDeviceErrorSticks(devices[..|devices| - 1], ownersOf, tag, n);
    } else {
      assert devices[..n] == devices;
    }
  }

  /** The filtered generator over one device's owners. */
  method BuildOwnerRecords(owners: seq<Record>, deviceId: Value, tag: Value) returns (r: Outcome<seq<Record>>)
    ensures r == OwnerRecords(owners, deviceId, tag)
  {
    var batch: seq<Record> := [];
    for j := 0 to |owners|
      invariant OwnerRecords(owners[..j], deviceId, tag) == Ok(batch)
    {
      assert owners[..j + 1][..j] == owners[..j];
      var owner := owners[j];
      if "@odata.type" !in owner {
        OwnerRecordsErrorSticks(owners, deviceId, tag, j + 1);
        return KeyError("@odata.type");
      }
      if owner["@odata.type"] == Str(UserODataType) {
        if "id" !in owner {
          OwnerRecordsErrorSticks(owners, deviceId, tag, j + 1);
          return KeyError("id");
        }
        batch := batch + [RelRecord(owner["id"], deviceId, tag)];
      } else {
        assert batch + [] == batch;
      }
    }
    assert owners[..|owners|] == owners;
    r := Ok(batch);
  }

  /** `load_user_device_relationships` up to the loader call. */
  method BuildUserDeviceRelationships(devices: seq<Record>, ownersOf: map<Value, seq<Record>>, tag: Value)
    returns (r: Outcome<seq<Record>>)
    ensures r == UserDeviceRelationships(devices, ownersOf, tag)
  {
    var relationships: seq<Record> := [];
    for i := 0 to |devices|
      invariant UserDeviceRelationships(devices[..i], ownersOf, tag) == Ok(relationships)
    {
      assert devices[..i + 1][..i] == devices[..i];
      if "id" !in devices[i] {
        UserDeviceErrorSticks(devices, ownersOf, tag, i + 1);
        return KeyError("id");
      }
      var batch := BuildOwnerRecords(Fetched(ownersOf, devices[i]["id"]), devices[i]["id"], tag);
      if batch.KeyError? {
        UserDeviceErrorSticks(devices, ownersOf, tag, i + 1);
        return batch;
      }
      relationships := relationships + batch.value;
    }
    assert devices[..|devices|] == devices;
    r := Ok(relationships);
  }

  /** Every owner has an `@odata.type` and every user owner an `id`. */
  predicate OwnersKeyed(owners: seq<Record>)
  {
    forall o :: o in owners ==> "@odata.type" in o && (UserOwner(o) ==> "id" in o)
  }

  /** The device has an `id` and its owners are keyed. */
  predicate DeviceKeyed(device: Record, ownersOf: map<Value, seq<Record>>)
  {
    "id" in device && OwnersKeyed(Fetched(ownersOf, device["id"]))
  }

  predicate DevicesKeyed(devices: seq<Record>, ownersOf: map<Value, seq<Record>>)
  {
    forall i :: 0 <= i < |devices| ==> DeviceKeyed(devices[i], ownersOf)
  }

  /** The number of owners typed as users. */
  function UserOwnerCount(owners: seq<Record>): nat
    decreases |owners|
  {
    if owners == [] then 0
    else UserOwnerCount(owners[..|owners| - 1]) + (if UserOwner(owners[|owners| - 1]) then 1 else 0)
  }

  function TotalUserOwners(devices: seq<Record>, ownersOf: map<Value, seq<Record>>): nat
    decreases |devices|
  {
    if devices == [] then 0
    else TotalUserOwners(devices[..|devices| - 1], ownersOf) +
         UserOwnerCount(Fetched(ownersOf, Get(devices[|devices| - 1], "id")))
  }

  /** One device's records: present exactly when its owners are keyed, and
      then one per user-typed owner. */
  lemma {:induction false} OwnerRecordsOk(owners: seq<Record>, deviceId: Value, tag: Value)
    ensures OwnerRecords(owners, deviceId, tag).Ok? <==> OwnersKeyed(owners)
    ensures OwnerRecords(owners, deviceId, tag).Ok? ==> |OwnerRecords(owners, deviceId, tag).value| == UserOwnerCount(owners)
    decreases |owners|
  {
    if owners != [] {
      var pre := owners[..|owners| - 1];
      OwnerRecordsOk(pre, deviceId, tag);
      assert forall x :: x in owners <==> x in pre || x == owners[|owners| - 1];
    }
  }

  /** A user-typed owner `j` gets its record after those of the user-typed
      owners before it. */
  lemma {:induction false} OwnerRecordsEntry(owners: seq<Record>, deviceId: Value, tag: Value, j: int)
    requires OwnerRecords(owners, deviceId, tag).Ok?
    requires 0 <= j < |owners| && UserOwner(owners[j]) && "id" in owners[j]
    ensures UserOwnerCount(owners[..j]) < |OwnerRecords(owners, deviceId, tag).value|
    ensures OwnerRecords(owners, deviceId, tag).value[UserOwnerCount(owners[..j])] == RelRecord(owners[j]["id"], deviceId, tag)
    decreases |owners|
  {
    var pre := owners[..|owners| - 1];
    OwnerRecordsOk(pre, deviceId, tag);
    if j == |owners| - 1 {
      assert owners[..j] == pre;
    } else {
      assert pre[j] == owners[j];
      assert owners[..j] == pre[..j];
      OwnerRecordsEntry(pre, deviceId, tag, j);
    }
  }

  /** Every record of a device comes from one of its user-typed owners. */
  lemma {:induction false} OwnerRecordsSource(owners: seq<Record>, deviceId: Value, tag: Value, k: int)
    requires OwnerRecords(owners, deviceId, tag).Ok? && 0 <= k < |OwnerRecords(owners, deviceId, tag).value|
    ensures exists j :: (0 <= j < |owners| && UserOwner(owners[j]) && "id" in owners[j] &&
      OwnerRecords(owners, deviceId, tag).value[k] == RelRecord(owners[j]["id"], deviceId, tag))
    decreases |owners|
  {
    var pre, o := owners[..|owners| - 1], owners[|owners| - 1];
    var acc := OwnerRecords(pre, deviceId, tag).value;
    if k < |acc| {
      OwnerRecordsSource(pre, deviceId, tag, k);
      var j :| 0 <= j < |pre| && UserOwner(pre[j]) && "id" in pre[j] && acc[k] == RelRecord(pre[j]["id"], deviceId, tag);
      assert pre[j] == owners[j];
    } else {
      assert UserOwner(owners[|owners| - 1]);
    }
  }

  /** The builder raises KeyError exactly when some device lacks an `id`, some
      owner an `@odata.type`, or some user owner an `id`. */
  lemma {:induction false} UserDeviceRelationshipsOk(devices: seq<Record>, ownersOf: map<Value, seq<Record>>, tag: Value)
    ensures UserDeviceRelationships(devices, ownersOf, tag).Ok? <==> DevicesKeyed(devices, ownersOf)
    decreases |devices|
  {
    if devices != [] {
      var pre, last := devices[..|devices| - 1], devices[|devices| - 1];
      UserDeviceRelationshipsOk(pre, ownersOf, tag);
      assert DeviceRecords(last, ownersOf, tag).Ok? <==> DeviceKeyed(last, ownersOf) by {
        if "id" in last {
          OwnerRecordsOk(Fetched(ownersOf, last["id"]), last["id"], tag);
        }
      }
      assert DevicesKeyed(devices, ownersOf) <==> DevicesKeyed(pre, ownersOf) && DeviceKeyed(last, ownersOf) by {
        assert forall i :: 0 <= i < |pre| ==> pre[i] == devices[i];
      }
    }
  }

  /** One record per user-typed owner, over all devices. */
  lemma {:induction false} UserDeviceRelationshipsLength(devices: seq<Record>, ownersOf: map<Value, seq<Record>>, tag: Value)
    requires UserDeviceRelationships(devices, ownersOf, tag).Ok?
    ensures |UserDeviceRelationships(devices, ownersOf, tag).value| == TotalUserOwners(devices, ownersOf)
    decreases |devices|
  {
    if devices != [] {
      var last := devices[|devices| - 1];
      UserDeviceRelationshipsLength(devices[..|devices| - 1], ownersOf, tag);
      OwnerRecordsOk(Fetched(ownersOf, last["id"]), last["id"], tag);
    }
  }

  /** The records of the first `n` devices come first. */
  lemma {:induction false} UserDeviceRelationshipsPrefix(devices: seq<Record>, ownersOf: map<Value, seq<Record>>, tag: Value, n: int)
    requires UserDeviceRelationships(devices, ownersOf, tag).Ok? && 0 <= n <= |devices|
    ensures UserDeviceRelationships(devices[..n], ownersOf, tag).Ok?
    ensures UserDeviceRelationships(devices[..n], ownersOf, tag).value <= UserDeviceRelationships(devices, ownersOf, tag).value
    decreases |devices|
  {
    if n < |devices| {
      var pre := devices[..|devices| - 1];
      assert pre[..n] == devices[..n];
      UserDeviceRelationshipsPrefix(pre, ownersOf, tag, n);
    } else {
      assert devices[..n] == devices;
    }
  }

  /** User owner `j` of device `i` sits after the user owners of the devices
      before `i` and the user owners before `j`, linked (source) to that device
      (target) under the tag. */
  lemma UserDeviceRelationshipsEntry(devices: seq<Record>, ownersOf: map<Value, seq<Record>>, tag: Value, i: int, j: int)
    requires UserDeviceRelationships(devices, ownersOf, tag).Ok?
    requires 0 <= i < |devices| && "id" in devices[i]
    requires 0 <= j < |Fetched(ownersOf, devices[i]["id"])|
    requires UserOwner(Fetched(ownersOf, devices[i]["id"])[j]) && "id" in Fetched(ownersOf, devices[i]["id"])[j]
    ensures TotalUserOwners(devices[..i], ownersOf) + UserOwnerCount(Fetched(ownersOf, devices[i]["id"])[..j]) <
      |UserDeviceRelationships(devices, ownersOf, tag).value|
    ensures UserDeviceRelationships(devices, ownersOf, tag).value[
        TotalUserOwners(devices[..i], ownersOf) + UserOwnerCount(Fetched(ownersOf, devices[i]["id"])[..j])] ==
      RelRecord(Fetched(ownersOf, devices[i]["id"])[j]["id"], devices[i]["id"], tag)
  {
    var upto, id := devices[..i + 1], devices[i]["id"];
    var owners := Fetched(ownersOf, id);
    UserDeviceRelationshipsPrefix(devices, ownersOf, tag, i + 1);
    assert upto[..i] == devices[..i] && upto[i] == devices[i];
    var whole := UserDeviceRelationships(devices, ownersOf, tag).value;
    var head := UserDeviceRelationships(upto, ownersOf, tag).value;
    var acc := UserDeviceRelationships(devices[..i], ownersOf, tag).value;
    var mine := OwnerRecords(owners, id, tag).value;
    assert head == acc + mine;
    UserDeviceRelationshipsLength(devices[..i], ownersOf, tag);
    OwnerRecordsEntry(owners, id, tag, j);
    var k := UserOwnerCount(owners[..j]);
    assert head[|acc| + k] == mine[k];
    assert whole[|acc| + k] == head[|acc| + k];
  }

  /** Every record comes from a user-typed owner of one of the devices. */
  lemma {:induction false} UserDeviceRelationshipsSource(devices: seq<Record>, ownersOf: map<Value, seq<Record>>, tag: Value, k: int)
    requires UserDeviceRelationships(devices, ownersOf, tag).Ok?
    requires 0 <= k < |UserDeviceRelationships(devices, ownersOf, tag).value|
    ensures exists i, j :: (0 <= i < |devices| && "id" in devices[i] &&
      0 <= j < |Fetched(ownersOf, devices[i]["id"])| &&
      UserOwner(Fetched(ownersOf, devices[i]["id"])[j]) && "id" in Fetched(ownersOf, devices[i]["id"])[j] &&
      UserDeviceRelationships(devices, ownersOf, tag).value[k] ==
        RelRecord(Fetched(ownersOf, devices[i]["id"])[j]["id"], devices[i]["id"], tag))
    decreases |devices|
  {
    var pre, last := devices[..|devices| - 1], devices[|devices| - 1];
    var acc := UserDeviceRelationships(pre, ownersOf, tag).value;
    if k < |acc| {
      UserDeviceRelationshipsSource(pre, ownersOf, tag, k);
      var i, j :| 0 <= i < |pre| && "id" in pre[i] &&
        0 <= j < |Fetched(ownersOf, pre[i]["id"])| &&
        UserOwner(Fetched(ownersOf, pre[i]["id"])[j]) && "id" in Fetched(ownersOf, pre[i]["id"])[j] &&
        acc[k] == RelRecord(Fetched(ownersOf, pre[i]["id"])[j]["id"], pre[i]["id"], tag);
      assert pre[i] == devices[i];
    } else {
      var owners := Fetched(ownersOf, last["id"]);
      OwnerRecordsSource(owners, last["id"], tag, k - |acc|);
      var j :| 0 <= j < |owners| && UserOwner(owners[j]) && "id" in owners[j] &&
        OwnerRecords(owners, last["id"], tag).value[k - |acc|] == RelRecord(owners[j]["id"], last["id"], tag);
      assert devices[|devices| - 1] == last;
    }
  }

  // -- handing over to the relationship loader ------------------------------------

  /** What a relationship loader hands to the generic relationship loader. */
  datatype RelLoad = RelLoad(rel: RelSchema, data: seq<Record>, tag: Value)

  /** `load_user_group_relationships`: the batch goes to the loader only when
      it is non-empty. */
  method LoadUserGroupRelationships(groups: seq<Record>, membersOf: map<Value, seq<Record>>, tag: Value)
    returns (r: Outcome<Option<RelLoad>>)
    ensures r.KeyError? <==> !GroupsKeyed(groups, membersOf)
    ensures r.Ok? ==>
      UserGroupRelationships(groups, membersOf, tag).Ok? && (r.value.None? <==> TotalMembers(groups, membersOf) == 0)
    ensures r.Ok? && r.value.Some? ==>
      && r.value.value.rel == Msft365UserModel.UserToGroupRel
      && r.value.value.data == UserGroupRelationships(groups, membersOf, tag).value
      && r.value.value.tag == tag
  {
    UserGroupRelationshipsOk(groups, membersOf, tag);
    if UserGroupRelationships(groups, membersOf, tag).Ok? {
      UserGroupRelationshipsLength(groups, membersOf, tag);
    }
    var built := BuildUserGroupRelationships(groups, membersOf, tag);
    if built.KeyError? {
      return KeyError(built.key);
    }
    if built.value == [] {
      return Ok(None);
    }
    r := Ok(Some(RelLoad(Msft365UserModel.UserToGroupRel, built.value, tag)));
  }

  /** `load_user_device_relationships`: likewise, for device owners. */
  method LoadUserDeviceRelationships(devices: seq<Record>, ownersOf: map<Value, seq<Record>>, tag: Value)
    returns (r: Outcome<Option<RelLoad>>)
    ensures r.KeyError? <==> !DevicesKeyed(devices, ownersOf)
    ensures r.Ok? ==>
      UserDeviceRelationships(devices, ownersOf, tag).Ok? && (r.value.None? <==> TotalUserOwners(devices, ownersOf) == 0)
    ensures r.Ok? && r.value.Some? ==>
      && r.value.value.rel == Msft365DeviceModel.DeviceOwnerRel
      && r.value.value.data == UserDeviceRelationships(devices, ownersOf, tag).value
      && r.value.value.tag == tag
  {
    UserDeviceRelationshipsOk(devices, ownersOf, tag);
    if UserDeviceRelationships(devices, ownersOf, tag).Ok? {
      UserDeviceRelationshipsLength(devices, ownersOf, tag);
    }
    var built := BuildUserDeviceRelationships(devices, ownersOf, tag);
    if built.KeyError? {
      return KeyError(built.key);
    }
    if built.value == [] {
      return Ok(None);
    }
    r := Ok(Some(RelLoad(Msft365DeviceModel.DeviceOwnerRel, built.value, tag)));
  }

  // ---------------------------------------------------------------------------
  // Cleanup
  // ---------------------------------------------------------------------------

  /** A cleanup job derived from a node schema and the common job parameters. */
  datatype GraphJob = FromNodeSchema(schema: NodeSchema, parameters: Record)

  function CleanupJobs(parameters: Record): seq<GraphJob>
  {
    [
      FromNodeSchema(Msft365UserModel.UserSchema, parameters),
      FromNodeSchema(Msft365GroupModel.GroupSchema, parameters),
      FromNodeSchema(Msft365OUModel.OrganizationalUnitSchema, parameters),
      FromNodeSchema(Msft365DeviceModel.DeviceSchema, parameters)
    ]
  }

  /** `run_cleanup_jobs`: runs the four jobs in list order; `ran` lists the jobs
      run. */
  method RunCleanupJobs(parameters: Record) returns (ran: seq<GraphJob>)
    ensures ran == CleanupJobs(parameters)
    ensures |ran| == 4
    ensures forall j :: 0 <= j < |ran| ==> ran[j].parameters == parameters
    ensures ran[0].schema.nodeLabel == "Msft365User" && ran[1].schema.nodeLabel == "Msft365Group"
    ensures ran[2].schema.nodeLabel == "Msft365OrganizationalUnit" && ran[3].schema.nodeLabel == "Msft365Device"
  {
    var jobs := CleanupJobs(parameters);
    ran := [];
    for i := 0 to |jobs|
      invariant ran == jobs[..i]
    {
      ran := ran + [jobs[i]];
    }
    assert jobs[..|jobs|] == jobs;
  }
}
