# Microsoft identity connectors of cartography, modelled in Dafny

cartography copies identity data from the Microsoft Graph API into a Neo4j
graph. Two connectors do this:

- The **O365** connector (`intel/o365`) writes its own Cypher. Its transforms
  map raw API records to flat records. `MERGE` statements upsert users,
  groups and organizational units on `(label, id)`. `MATCH`/`MERGE` creates
  `MEMBER_OF` edges between existing nodes. Mark-and-sweep statements delete
  every node and edge whose `lastupdated` is not the run tag.
- The **Msft365** connector (`intel/msft365`) hands batches to a generic
  schema loader. Its transforms build the batches. Each loader stamps the
  records with `lastupdated`. Relationship builders flatten group members and
  device owners into `source_id`/`target_id` records, and a cleanup job list
  is built from the node schemas.
- Both connectors declare frozen schema dataclasses: labels, properties with
  an `optional` flag, and outgoing relationships. Both have a run
  orchestrator: a credential gate, then the stages in a fixed order inside one
  `try` that re-raises the first exception.

The model has these modules:

- `Records`: raw records as maps from field names to scalar JSON values,
  with Python's `dict.get` and truthiness.
- `SchemaTypes`: the schema vocabulary, and what it means for a record to
  satisfy a schema.
- `O365Schema`, `Msft365Schema`, and one module per file of
  `models/msft365`: the schema constants, with lemmas about their shape and
  well-formedness.
- `GraphStore`: a property graph with the semantics of the Cypher the O365
  connector issues.
  - Nodes and edges are finite maps keyed by `(label, id)` and
    `(source, type, target)`, so there is at most one node per key and one
    edge per key.
  - Specification functions say what each statement does.
  - The class `Graph` holds the two maps. Its methods are proved equal to
    those functions: `MergeNodes` and `MatchMergeEdges` loop over their
    batch, and `RunCleanupJob` applies one statement to the whole graph.
- `O365`: the O365 transforms, loaders, relationship loader and cleanup,
  against `GraphStore.Graph`.
- `Msft365`: the Msft365 transforms, batch stamping, relationship builders
  with their KeyError paths, relationship loaders and the cleanup job list.
- `Ingestion`, `O365Ingestion`, `Msft365Ingestion`: the two orchestrators.
  Devices are not among their stages.

Some behaviour of the code that the model keeps:

- The transforms read every field with `.get`, so a record whose required
  fields are missing is kept, with nulls in those fields.
- An orchestrator stops the whole run at the first exception and re-raises
  it. The stages after it do not run.
- Neither orchestrator syncs devices.
- The loaders report no counts of created, deleted or skipped entities.
  An edge whose endpoint is missing is skipped silently by `MATCH`.

## Model

| member | source | states |
|---|---|---|
| Records.ProjectShape | cartography/intel/o365/o365.py:257-265 | A projected record has exactly the listed keys. A listed field takes the raw value, or null when the raw record lacks it. Unlisted raw fields are dropped. |
| Records.ProjectAllShape | cartography/intel/msft365/msft365.py:123-149 | Projecting a list keeps its length and order. Every output has the same key set, and each listed field takes the value of the input at the same position. |
| Records.UserFieldCount | cartography/intel/o365/o365.py:258-265 | The user transforms write 6 distinct keys. |
| Records.GroupFieldCount | cartography/intel/o365/o365.py:279-284 | The group transforms write 4 distinct keys. |
| Records.OUFieldCount | cartography/intel/o365/o365.py:298-302 | The OU transforms write 3 distinct keys. |
| SchemaTypes.RequiredOptionalSplit | cartography/intel/o365/schema.py:15-21 | Every declared property name is required or optional. When the names are distinct, no name is both. |
| SchemaTypes.ProjectSatisfies | cartography/intel/o365/o365.py:257-265 | A projection onto fields that include every required name satisfies the schema exactly when the raw record has non-null values for the required names. |
| O365Schema.UserSchemaShape | cartography/intel/o365/schema.py:30-46 | Label `O365User`. Exactly one relationship: `MEMBER_OF`, outgoing, targeting the group label. |
| O365Schema.UserSchemaProperties | cartography/intel/o365/schema.py:15-21 | Six properties in declaration order. `id`, `displayName`, `userPrincipalName` and `mail` are required; `jobTitle` and `department` are optional. |
| O365Schema.GroupSchemaShape | cartography/intel/o365/schema.py:60-63 | Label `O365Group`, with no relationships. |
| O365Schema.GroupSchemaProperties | cartography/intel/o365/schema.py:53-57 | `id` and `displayName` are required; `description` and `mail` are optional. |
| O365Schema.OrganizationalUnitSchemaShape | cartography/intel/o365/schema.py:82-113 | Label `O365OrganizationalUnit`. Two outgoing `CONTAINS` relationships, to the user label and then the group label. |
| O365Schema.OrganizationalUnitSchemaProperties | cartography/intel/o365/schema.py:70-73 | `id` and `displayName` are required; `description` is optional. |
| O365Schema.RelationshipsCarryTimestamps | cartography/intel/o365/schema.py:24-27 | Every relationship of every O365 schema declares `firstseen` and then `lastupdated`. |
| O365Schema.UserSchemaWellFormed | cartography/intel/o365/schema.py:15-46 | The user schema has a required `id` and distinct property names. Each of its relationships declares `lastupdated` once. |
| O365Schema.GroupSchemaWellFormed | cartography/intel/o365/schema.py:52-63 | The same for the group schema. |
| O365Schema.OrganizationalUnitSchemaWellFormed | cartography/intel/o365/schema.py:69-113 | The same for the OU schema. |
| O365Schema.RegistryLabels | cartography/intel/o365/schema.py:38-113 | The labels are `O365User`, `O365Group` and `O365OrganizationalUnit`, in that order. |
| O365Schema.RegistryNodesWellFormed | cartography/intel/o365/schema.py:14-113 | Each of the three schemas is well-formed. |
| O365Schema.RegistryTargetsRegistered | cartography/intel/o365/schema.py:30-113 | Every relationship targets one of the three labels. |
| O365Schema.RegistryWellFormed | cartography/intel/o365/schema.py:14-113 | The labels are pairwise distinct, each schema is well-formed, and every relationship target is registered. |
| Msft365Schema.UserSchemaShape | cartography/intel/msft365/schema.py:30-46 | Label `Msft365User`. Exactly one relationship: `MEMBER_OF`, outgoing, targeting the group label. |
| Msft365Schema.UserSchemaProperties | cartography/intel/msft365/schema.py:15-21 | `jobTitle` and `department` are optional; the other four are required. |
| Msft365Schema.GroupSchemaShape | cartography/intel/msft365/schema.py:60-63 | Label `Msft365Group`, with no relationships. |
| Msft365Schema.GroupSchemaProperties | cartography/intel/msft365/schema.py:53-57 | `id` and `displayName` are required; `description` and `mail` are optional. |
| Msft365Schema.OrganizationalUnitSchemaShape | cartography/intel/msft365/schema.py:82-113 | Two outgoing `CONTAINS` relationships, to `Msft365User` and then `Msft365Group`. |
| Msft365Schema.OrganizationalUnitSchemaProperties | cartography/intel/msft365/schema.py:70-73 | `description` is the only optional OU property. |
| Msft365Schema.DeviceSchemaShape | cartography/intel/msft365/schema.py:138-153 | Label `Msft365Device`. Exactly one relationship: `OWNED_BY`, outgoing, targeting the user label. |
| Msft365Schema.DeviceSchemaProperties | cartography/intel/msft365/schema.py:120-131 | `approximateLastSignInDateTime` and `isCompliant` are optional. `id`, `displayName`, `operatingSystem` and `deviceOwnership` are required. |
| Msft365Schema.RelationshipsCarryTimestamps | cartography/intel/msft365/schema.py:24-27 | Every relationship declares `firstseen` and then `lastupdated`. |
| Msft365Schema.UserSchemaWellFormed | cartography/intel/msft365/schema.py:14-46 | The user schema has a required `id` and distinct property names, and stamps its relationship. |
| Msft365Schema.GroupSchemaWellFormed | cartography/intel/msft365/schema.py:52-63 | The same for the group schema. |
| Msft365Schema.OrganizationalUnitSchemaWellFormed | cartography/intel/msft365/schema.py:69-113 | The same for the OU schema. |
| Msft365Schema.DeviceSchemaWellFormed | cartography/intel/msft365/schema.py:120-153 | The same for the device schema. |
| Msft365Schema.RegistryLabels | cartography/intel/msft365/schema.py:38-153 | The labels are user, group, OU and device, in that order. |
| Msft365Schema.RegistryNodesWellFormed | cartography/intel/msft365/schema.py:14-153 | Each of the four schemas is well-formed. |
| Msft365Schema.RegistryTargetsRegistered | cartography/intel/msft365/schema.py:30-153 | Every relationship targets one of the four labels. |
| Msft365Schema.RegistryWellFormed | cartography/intel/msft365/schema.py:14-153 | The four labels are pairwise distinct and every relationship target is registered. |
| Msft365UserModel.UserSchemaShape | cartography/models/msft365/userSchema.py:16-31 | Label `Msft365User`. One outgoing `MEMBER_OF` relationship to `Msft365Group`, whose only property is `lastupdated` (no `firstseen`). |
| Msft365UserModel.UserSchemaProperties | cartography/models/msft365/userSchema.py:7-14 | Seven properties, ending with `lastupdated`, and none of them optional. |
| Msft365UserModel.UserSchemaWellFormed | cartography/models/msft365/userSchema.py:6-31 | Required `id`, distinct names, and a stamped relationship. |
| Msft365GroupModel.GroupSchemaShape | cartography/models/msft365/groupSchema.py:13-16 | Label `Msft365Group`, with no relationships. |
| Msft365GroupModel.GroupSchemaProperties | cartography/models/msft365/groupSchema.py:5-11 | `id`, `displayName`, `description`, `mail` and `lastupdated` are all required. |
| Msft365GroupModel.GroupSchemaWellFormed | cartography/models/msft365/groupSchema.py:5-16 | Required `id` and distinct names. |
| Msft365OUModel.OrganizationalUnitSchemaShape | cartography/models/msft365/ouSchema.py:13-44 | Two outgoing `CONTAINS` relationships, to `Msft365User` and then `Msft365Group`. Each declares only `lastupdated`. |
| Msft365OUModel.OrganizationalUnitSchemaProperties | cartography/models/msft365/ouSchema.py:7-12 | `id`, `displayName`, `description` and `lastupdated` are all required. |
| Msft365OUModel.OrganizationalUnitSchemaWellFormed | cartography/models/msft365/ouSchema.py:7-44 | Required `id`, distinct names, and stamped relationships. |
| Msft365DeviceModel.DeviceSchemaShape | cartography/models/msft365/deviceSchema.py:14-29 | Label `Msft365Device`. One outgoing `OWNED_BY` relationship to `Msft365User`, declaring only `lastupdated`. |
| Msft365DeviceModel.DeviceSchemaProperties | cartography/models/msft365/deviceSchema.py:6-12 | `id`, `displayName`, `operatingSystem`, `deviceOwnership` and `lastupdated` are all required. |
| Msft365DeviceModel.DeviceSchemaWellFormed | cartography/models/msft365/deviceSchema.py:6-29 | Required `id`, distinct names, and a stamped relationship. |
| GraphStore.SetProps | cartography/intel/o365/o365.py:319-324 | `SET n.p = row.p` for each listed property. A null or missing value removes the property; any other value overwrites it. Unlisted properties are kept. |
| GraphStore.SetPropsOverride | cartography/intel/o365/o365.py:319-324 | A later `SET` of the same properties hides an earlier one completely. |
| GraphStore.MergedNodesAt | cartography/intel/o365/o365.py:316-324 | After a batch, the keys are exactly the old keys plus one key per distinct batch id. A node outside the batch is unchanged. A batch node keeps its `firstseen`, or gets `now` when created. It is tagged, and it carries the properties of the last row with its id, laid over what it had. |
| GraphStore.MergedNodesIdempotent | cartography/intel/o365/o365.py:315-331 | Loading the same batch again with the same tag changes nothing, whatever the clock reads. |
| GraphStore.MergedNodesValid | cartography/intel/o365/o365.py:315-324 | A node load with no null id, from a valid graph, leaves a valid graph. No node gets a null id and no edge loses an endpoint. |
| GraphStore.MergedEdgesFromAt | cartography/intel/o365/o365.py:411-415 | The `UNWIND`/`MATCH`/`MERGE` loop adds exactly the edges from source ids that match an existing node. Matched edges keep `firstseen` and are tagged. Other edges are untouched. |
| GraphStore.MergedEdgesAt | cartography/intel/o365/o365.py:410-415 | No edge is merged when the target does not match. Every merged edge has the given type and target, and joins two existing nodes. No node is created. |
| GraphStore.MergedEdgesValid | cartography/intel/o365/o365.py:410-413 | Merging edges keeps the graph free of dangling edges and null-id nodes. |
| GraphStore.RunJobsNodes | cartography/intel/o365/o365.py:453-469 | A list of cleanup jobs keeps exactly the nodes that are not stale under a swept label, and keeps them unchanged. |
| GraphStore.RunJobsEdges | cartography/intel/o365/o365.py:453-475 | An edge survives exactly when neither endpoint is removed and no relationship job finds its own stamp stale. This holds whatever the order of the jobs. |
| GraphStore.RunJobsEdgesUnchanged | cartography/intel/o365/o365.py:453-475 | Surviving edges keep their stamps. |
| GraphStore.RunJobsAt | cartography/intel/o365/o365.py:453-475 | The node and edge characterizations of the sweep, together. |
| GraphStore.RunJobsValid | cartography/intel/o365/o365.py:455-469 | `DETACH DELETE` leaves no edge pointing at a removed node. |
| GraphStore.RunJobsIdempotent | cartography/intel/o365/o365.py:453-475 | A second sweep with the same tag removes nothing. |
| GraphStore.LoadThenSweep | cartography/intel/o365/o365.py:315-457 | Suppose no node of a label carries the new tag. Loading a batch with that tag and then sweeping the label leaves exactly the nodes of that label whose ids the batch named. |
| GraphStore.Graph.MergeNodes | cartography/intel/o365/o365.py:315-331 | One node statement. A null id makes it raise and roll back, leaving the graph unchanged. Otherwise the nodes become `MergedNodes` of the old nodes. Edges are never touched. Together: the new graph is `AfterMergeNodes` of the old one. |
| GraphStore.Graph.MatchMergeEdges | cartography/intel/o365/o365.py:409-423 | One relationship statement. The nodes are unchanged and the edges become `MergedEdges` of the old state. |
| GraphStore.Graph.RunCleanupJob | cartography/intel/o365/o365.py:479-489 | One cleanup statement turns the graph into `RunJob` of the old graph. |
| O365.CypherMatchesSchema | cartography/intel/o365/o365.py:409-415 | The labels and the relationship type in the Cypher are the ones the O365 schemas declare. |
| O365.TransformUsers | cartography/intel/o365/o365.py:248-267 | The loop appends one record per user, in order. The result is the projection onto the six user fields. Each output has exactly those six keys, with the user's values. |
| O365.TransformGroups | cartography/intel/o365/o365.py:269-286 | The same, with the four group fields. |
| O365.TransformOus | cartography/intel/o365/o365.py:288-304 | The same, with the three OU fields. |
| O365.TransformedUserConforms | cartography/intel/o365/schema.py:15-21 | A transformed user satisfies the O365 user schema exactly when `id`, `displayName`, `userPrincipalName` and `mail` are non-null in the API record. |
| O365.TransformedGroupConforms | cartography/intel/o365/schema.py:53-57 | A transformed group satisfies the group schema exactly when `id` and `displayName` are non-null. |
| O365.TransformedOUConforms | cartography/intel/o365/schema.py:70-73 | A transformed OU satisfies the OU schema exactly when `id` and `displayName` are non-null. |
| O365.LoadO365Users | cartography/intel/o365/o365.py:307-331 | The statement succeeds exactly when every id is non-null. The new nodes are the merge of the batch under `O365User`. Edges are unchanged. |
| O365.LoadO365Groups | cartography/intel/o365/o365.py:335-357 | The same, under `O365Group`. |
| O365.LoadO365OrganizationalUnits | cartography/intel/o365/o365.py:361-386 | An empty list leaves the graph unchanged. Otherwise it is the same as the other loaders, under `O365OrganizationalUnit`. |
| O365.LoadedUser | cartography/intel/o365/o365.py:315-324 | Each loaded user holds, for each `SET` property, the value of the last row with its id. `firstseen` is `now` only on creation. `lastupdated` is the tag. Nodes of other labels are unchanged. |
| O365.ReloadUsersIdempotent | cartography/intel/o365/o365.py:315-331 | Loading the same users twice with one tag gives the graph that one load gives. |
| O365.LoadO365UserGroupRelationships | cartography/intel/o365/o365.py:390-423 | Skips a group with a falsy id or no members, and runs one statement for each other group. Each statement reads its own clock. The nodes are unchanged and the edges become `MembershipEdges`. |
| O365.GroupKeysIncluded | cartography/intel/o365/o365.py:398-420 | Every edge key that one group's statement matches is among the keys the loader adds. |
| O365.UnmatchedKeyAbsent | cartography/intel/o365/o365.py:398-420 | A key that no group's statement matches is not among the keys the loader adds. |
| O365.CreatedAtOf | cartography/intel/o365/o365.py:409-415 | Take a group whose statement matches an edge that no earlier group adds. The loader adds that edge, and if it creates the edge, it uses that group's clock. |
| O365.CreatedAtFirst | cartography/intel/o365/o365.py:409-415 | Take the first group whose statement matches an edge. The loader adds that edge, and if it creates the edge, its `firstseen` is the clock of that group's statement. |
| O365.MembershipEdgesAt | cartography/intel/o365/o365.py:409-415 | The loader adds exactly the matched `MEMBER_OF` keys. Each runs from an existing `O365User` to an existing `O365Group` and is tagged. It keeps its `firstseen`, or gets the clock of the statement that created it. Every other edge is unchanged. |
| O365.MembershipComplete | cartography/intel/o365/o365.py:399-415 | Take a group with a truthy id whose node exists, and a member whose user node exists. That member gets a `MEMBER_OF` edge to that group. |
| O365.MembershipKeysSound | cartography/intel/o365/o365.py:399-407 | Every added edge comes from a group with a truthy id and a non-empty member list, and from one of that group's member ids. Skipped groups contribute nothing. |
| O365.MembershipEdgesValid | cartography/intel/o365/o365.py:409-413 | The relationship loader leaves no dangling edge. |
| O365.RunCleanupJobs | cartography/intel/o365/o365.py:445-475 | The four statements run in order on the graph. |
| O365.CleanupSweeps | cartography/intel/o365/o365.py:453-469 | The node statements sweep exactly the user, group and OU labels. |
| O365.CleanupLeavesNothingStale | cartography/intel/o365/o365.py:453-475 | After cleanup, no O365 node and no `MEMBER_OF` edge carries another tag. |
| O365.CleanupKeepsCurrent | cartography/intel/o365/o365.py:453-475 | Cleanup keeps, unchanged: every node tagged with the run tag, every node of another label, and every tagged edge whose ends survive. A valid graph stays valid, with no edge touching a deleted node. |
| O365.CleanupIdempotent | cartography/intel/o365/o365.py:453-475 | Re-running cleanup with the same tag deletes nothing. |
| O365.SyncKeepsValid | cartography/intel/o365/__init__.py:60-101 | A run's graph statements take a valid graph to a valid graph. The statements are the user, group and OU loads, the `MEMBER_OF` loader and the cleanup, stopping at the first load that raises on a null id. When no load raises, the run reaches the cleanup, and every O365 node and every `MEMBER_OF` edge then carries the run's tag. |
| O365.SyncAbortKeepsGraph | cartography/intel/o365/__init__.py:60-101 | When a batch holds a null id, the run re-raises at that load. No edge is touched and no node is deleted: the earlier loads stay and the cleanup never runs. A null user id leaves the graph exactly as it was. |
| Msft365.TransformUsers | cartography/intel/msft365/msft365.py:123-132 | One record per user, in order. Each has exactly the six user keys, with the `.get` values. |
| Msft365.TransformGroups | cartography/intel/msft365/msft365.py:134-141 | The same, with the four group keys. |
| Msft365.TransformOus | cartography/intel/msft365/msft365.py:143-149 | The same, with the three OU keys. |
| Msft365.TransformDevices | cartography/intel/msft365/msft365.py:151-160 | One record per device, with exactly the keys `id`, `displayName`, `os`, `deviceOwnership`, `lastSignIn` and `isCompliant`. `os` comes from `operatingSystem` and `lastSignIn` from `approximateLastSignInDateTime`. `isCompliant` is False when the key is absent, and the stored value otherwise. |
| Msft365.Stamp | cartography/intel/msft365/msft365.py:168 | Each record keeps its keys and values and gains `lastupdated` equal to the tag, which overrides any earlier value. The length is kept. |
| Msft365.LoadMsft365Users | cartography/intel/msft365/msft365.py:166-170 | The batch goes to the `models` user schema under the tag. It has the same length. Each record keeps the keys and values of its input and adds `lastupdated`, set to the tag. |
| Msft365.LoadMsft365Groups | cartography/intel/msft365/msft365.py:172-176 | The same, with the group schema. |
| Msft365.LoadMsft365Devices | cartography/intel/msft365/msft365.py:178-182 | The same, with the device schema. |
| Msft365.LoadMsft365OrganizationalUnits | cartography/intel/msft365/msft365.py:184-190 | Nothing is loaded exactly when the list is empty. Otherwise the batch goes to the OU schema. Each record keeps its input's keys and values and adds `lastupdated`, set to the tag. |
| Msft365.StampedSatisfies | cartography/intel/msft365/msft365.py:168-169 | Take a schema whose required names are `names` followed by `lastupdated`. A stamped record satisfies it exactly when its `names` values and the tag are non-null. |
| Msft365.UserBatchConforms | cartography/intel/msft365/msft365.py:168-169 | A user batch record satisfies the user schema the loader names exactly when all six user fields and the tag are non-null. `jobTitle` and `department` are required there. |
| Msft365.GroupBatchConforms | cartography/intel/msft365/msft365.py:174-175 | A group batch record satisfies the group schema exactly when all four group fields and the tag are non-null. |
| Msft365.OUBatchConforms | cartography/intel/msft365/msft365.py:188-189 | An OU batch record satisfies the OU schema exactly when all three OU fields and the tag are non-null. |
| Msft365.DeviceBatchNeverConforms | cartography/intel/msft365/msft365.py:153-160 | As written, no transformed device record ever satisfies the device schema the loader names. |
| Msft365.TransformDeviceCorrected | cartography/models/msft365/deviceSchema.py:7-12 | The corrected device record holds each required schema property under its schema name, with the API value. |
| Msft365.TransformDevicesCorrected | cartography/intel/msft365/msft365.py:151-160 | The corrected transform keeps length and order and carries the required device fields under their schema names. |
| Msft365.DeviceBatchCorrectedConforms | cartography/models/msft365/deviceSchema.py:7-12 | With the corrected names, a device batch record satisfies the schema exactly when `id`, `displayName`, `operatingSystem`, `deviceOwnership` and the tag are non-null. |
| Msft365.MemberRecordsErrorSticks | cartography/intel/msft365/msft365.py:196-201 | Once a member lacks `id`, the generator's KeyError is the result. |
| Msft365.UserGroupErrorSticks | cartography/intel/msft365/msft365.py:195-201 | Once a group raises, the whole loop raises that error. |
| Msft365.BuildMemberRecords | cartography/intel/msft365/msft365.py:197-201 | The generator over one group's members, proved equal to `MemberRecords`. |
| Msft365.BuildUserGroupRelationships | cartography/intel/msft365/msft365.py:194-201 | The loop over groups, extending the list, proved equal to `UserGroupRelationships`. |
| Msft365.MemberRecordsOk | cartography/intel/msft365/msft365.py:197-201 | A group's records exist exactly when every member has an `id`. There is then one record per member. |
| Msft365.MemberRecordsEntry | cartography/intel/msft365/msft365.py:197-201 | Record `j` links member `j` (source) to the group (target) under the tag. |
| Msft365.UserGroupRelationshipsOk | cartography/intel/msft365/msft365.py:195-201 | The builder raises KeyError exactly when some group, or some member of a group, lacks `id`. |
| Msft365.UserGroupRelationshipsLength | cartography/intel/msft365/msft365.py:194-201 | The list has one record per member over all groups. |
| Msft365.UserGroupRelationshipsPrefix | cartography/intel/msft365/msft365.py:194-201 | The records of the first `n` groups form a prefix of the list. |
| Msft365.UserGroupRelationshipsEntry | cartography/intel/msft365/msft365.py:194-201 | Member `j` of group `i` sits at (members of the earlier groups) + `j`. Its record has `source_id` = member id, `target_id` = group id, and `lastupdated` = the tag. |
| Msft365.OwnerRecordsErrorSticks | cartography/intel/msft365/msft365.py:228-232 | Once an owner raises, the generator's KeyError is the result. |
| Msft365.UserDeviceErrorSticks | cartography/intel/msft365/msft365.py:223-232 | Once a device raises, the whole loop raises that error. |
| Msft365.BuildOwnerRecords | cartography/intel/msft365/msft365.py:228-232 | The filtered generator over one device's owners, proved equal to `OwnerRecords`. |
| Msft365.BuildUserDeviceRelationships | cartography/intel/msft365/msft365.py:221-232 | The loop over devices, proved equal to `UserDeviceRelationships`. |
| Msft365.OwnerRecordsOk | cartography/intel/msft365/msft365.py:228-232 | The records exist exactly when every owner has `@odata.type` and every user-typed owner has `id`. There is then one record per user-typed owner. |
| Msft365.OwnerRecordsEntry | cartography/intel/msft365/msft365.py:228-232 | A user-typed owner's record follows those of the user-typed owners before it, and links the owner to the device. |
| Msft365.OwnerRecordsSource | cartography/intel/msft365/msft365.py:228-232 | Every record comes from an owner whose `@odata.type` is `#microsoft.graph.user`. |
| Msft365.UserDeviceRelationshipsOk | cartography/intel/msft365/msft365.py:223-232 | The builder raises KeyError exactly when some device lacks `id`, some owner lacks `@odata.type`, or some user owner lacks `id`. |
| Msft365.UserDeviceRelationshipsLength | cartography/intel/msft365/msft365.py:221-232 | The list has one record per user-typed owner over all devices. |
| Msft365.UserDeviceRelationshipsPrefix | cartography/intel/msft365/msft365.py:221-232 | The records of the first `n` devices form a prefix of the list. |
| Msft365.UserDeviceRelationshipsEntry | cartography/intel/msft365/msft365.py:221-232 | User owner `j` of device `i` has a record at its position, with `source_id` = owner id, `target_id` = device id, and the tag. |
| Msft365.UserDeviceRelationshipsSource | cartography/intel/msft365/msft365.py:221-232 | Every record comes from a user-typed owner of one of the devices. |
| Msft365.LoadUserGroupRelationships | cartography/intel/msft365/msft365.py:192-210 | Raises KeyError exactly when an `id` is missing. Nothing is handed over exactly when the groups have no members. Otherwise the whole list goes to the `MEMBER_OF` schema under the tag. |
| Msft365.LoadUserDeviceRelationships | cartography/intel/msft365/msft365.py:218-241 | The same for devices. Nothing is handed over exactly when no owner is user-typed. Otherwise the list goes to the `OWNED_BY` schema. |
| Msft365.RunCleanupJobs | cartography/intel/msft365/msft365.py:246-260 | Exactly four jobs run, in the order user, group, OU, device, each with the common job parameters. |
| Ingestion.AttemptAt | cartography/intel/msft365/__init__.py:60-101 | The calls follow the stage order, all with one tag. The run stops at the first stage that raises, and only when one raises; that stage is the last call. |
| Ingestion.RunStages | cartography/intel/msft365/__init__.py:60-95 | The six stage calls in order, stopping at the first raising stage, proved equal to `Attempt` over the stage order. |
| Ingestion.IngestCalls | cartography/intel/msft365/__init__.py:44-95 | A run turned away at the gate calls nothing. A configured run calls the stages in order, each with `UPDATE_TAG` from the job parameters. |
| Ingestion.IngestOutcome | cartography/intel/msft365/__init__.py:60-101 | A configured run completes exactly when no stage raises. Otherwise it re-raises the first raising stage, and nothing runs after it. |
| Ingestion.CleanupOnlyAfterSyncs | cartography/intel/msft365/__init__.py:91-95 | Cleanup is called only when all five sync stages returned normally. |
| Ingestion.NodeSyncsBeforeRelationshipSyncs | cartography/intel/o365/__init__.py:61-89 | Every node-sync call comes before every relationship-sync call. |
| O365Ingestion.StartO365Ingestion | cartography/intel/o365/__init__.py:44-101 | The run is turned away exactly when one of `o365_tenant_id`, `o365_client_id` or `o365_client_secret` is missing or falsy. Otherwise it is the staged run with the job parameters' `UPDATE_TAG`. |
| Msft365Ingestion.StartMsft365Ingestion | cartography/intel/msft365/__init__.py:44-101 | The same gate on the `Msft365_` keys, and the same stages. |
| Msft365Ingestion.ArityFailuresAsWritten | cartography/intel/msft365/__init__.py:63-95 | Every stage call except the user-group one passes a different number of arguments than its function in `msft365.py:246-303` takes: 6 for 4 (users, groups, OUs), 4 for 5 (OU relationships), 3 for 2 (cleanup). |
| Msft365Ingestion.RunAsWrittenRaises | cartography/intel/msft365/__init__.py:60-101 | With those calls, a configured run raises at the user sync after exactly one call, whatever else fails. It never completes and never reaches the cleanup. |
| Msft365Ingestion.RunCorrectedCompletes | cartography/intel/msft365/msft365.py:246-303 | With calls that pass what each function takes, no stage fails for its arguments. A run in which nothing else raises calls all six stages and completes. |

## Left out

- HTTP, authentication and pagination are not modelled. This covers `get_access_token`, the fetch loops, `paginated_api_call`, `get_group_members`, and the 404 fallback of the OU fetch. Fetched lists, group members and device owners are inputs (maps from an id to the records the API returns).
- `load_node_data`, `load_relationship_data` and `GraphJob` are library code that is not part of this model. For the Msft365 connector the model stops at the batch, schema and tag each loader hands over, and at the job list of `run_cleanup_jobs`.
- The placeholder OU relationship loaders (`cartography/intel/o365/o365.py:427-442`, `cartography/intel/msft365/msft365.py:212-216`) do nothing beyond an early return.
- The definitions at `cartography/intel/o365/o365.py:1-94` are shadowed by later ones and refer to undefined names.
- Logging is not modelled.
- `timestamp()` is an integer parameter, one value per statement. The node loaders take one each, and the `MEMBER_OF` loader takes one per group statement. Within one statement all rows share it, as `timestamp()` does in Cypher.
- GraphStore.RunJobs: the run tag is a non-null integer in the O365 graph, where the source passes whatever `UPDATE_TAG` holds. A missing `UPDATE_TAG` is therefore outside the graph model. The source would then remove `lastupdated` from every loaded node and edge, because `SET` to null removes the property, and its cleanup would delete nothing, because `<>` with null is never true.
- A stage's effect on the graph is not modelled in the orchestrators. The orchestrators record the stage order and the tag.
- The O365 orchestrator imports its stages from `cartography/intel/o365/api.py`, which is not part of this model. The definitions in `o365.py` take 7 parameters for the two relationship syncs (`o365.py:555`, `o365.py:572`). The orchestrator passes 5 and 4 (`o365/__init__.py:81-89`), so with those definitions a configured run would raise at the user-group stage, after the three node syncs and before the cleanup.
- O365.SyncKeepsValid: the chain assumes that every stage reaches its statements, which holds for the stages `api.py` defines and not for the `o365.py` definitions above.
- Msft365Ingestion.StartMsft365Ingestion: the failing stages are an input. As written, the user, group, OU, OU relationship and cleanup calls always raise TypeError, so a configured run ends at the first stage (Msft365Ingestion.RunAsWrittenRaises). The method's contract also covers runs that cannot happen as written, including one that completes.
- Ingestion.Ingest: the failing stages are an input set, since whether a stage raises depends on the network and the database.
- The `sync_*` wrappers are not modelled separately. Their fetch-transform-load chain is covered by the transform and load members.
- `cartography/intel/gsuite/mock.py`, the re-exports in `cartography/models/msft365/__init__.py` and the tests are not modelled.
- `PropertyRef`'s description string is not modelled; only the name and the `optional` flag are.
- Neo4j's transaction rollback is modelled only for a null id in a node `MERGE`. Other database errors are not modelled.

## Findings

| source | as written | input that shows it | evidently intended | confidence | as-written member | corrected member |
|---|---|---|---|---|---|---|
| cartography/intel/msft365/__init__.py:63-65 | `sync_Msft365_users` is called with six positional arguments (`neo4j_session, tenant_id, client_id, client_secret, update_tag, common_job_parameters`), while `msft365.py:266` takes four. The group, OU, OU relationship and cleanup calls mismatch as well | any configured run, e.g. all three `Msft365_` credentials set: the first call raises TypeError, the `except` re-raises, and nothing is synced | pass each function the arguments it takes (a session, an access token, the tag and the job parameters), so that the stages run in order and the run can complete | not executed | Msft365Ingestion.RunAsWrittenRaises | Msft365Ingestion.RunCorrectedCompletes |
| cartography/intel/msft365/msft365.py:156 | `transform_devices` writes the operating system under `os` and the sign-in time under `lastSignIn`, while the device schema the loader uses (`cartography/models/msft365/deviceSchema.py:10`) requires `operatingSystem` | any device, e.g. `{"id": "d1", "displayName": "pc", "operatingSystem": "Windows", "deviceOwnership": "Company"}`: the stamped record lacks `operatingSystem`, so it never satisfies the schema | write the schema's property names, so that a device with non-null required fields satisfies the schema | not executed | Msft365.DeviceBatchNeverConforms | Msft365.DeviceBatchCorrectedConforms |
