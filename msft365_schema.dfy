/**
 * The alternative Msft365 schemas of intel/msft365/schema.py as constants.
 * The loaders do not import this module: they load against the schemas of
 * models/msft365 (modules Msft365UserModel, Msft365GroupModel, Msft365OUModel
 * and Msft365DeviceModel).
 */
module Msft365Schema {
  import opened SchemaTypes

  const RelTimestamps: seq<PropertyRef> := [PropertyRef("firstseen", false), PropertyRef("lastupdated", false)]

  const UserProperties: seq<PropertyRef> := [
    PropertyRef("id", false),
    PropertyRef("displayName", false),
    PropertyRef("userPrincipalName", false),
    PropertyRef("mail", false),
    PropertyRef("jobTitle", true),
    PropertyRef("department", true)
  ]

  const UserToGroupRel: RelSchema := RelSchema("Msft365Group", "MEMBER_OF", Outgoing, RelTimestamps)

  const UserSchema: NodeSchema := NodeSchema("Msft365User", UserProperties, [UserToGroupRel])

  const GroupProperties: seq<PropertyRef> := [
    PropertyRef("id", false),
    PropertyRef("displayName", false),
    PropertyRef("description", true),
    PropertyRef("mail", true)
  ]

  const GroupSchema: NodeSchema := NodeSchema("Msft365Group", GroupProperties, [])

  const OUProperties: seq<PropertyRef> := [
    PropertyRef("id", false),
    PropertyRef("displayName", false),
    PropertyRef("description", true)
  ]

  const OUToUserRel: RelSchema := RelSchema("Msft365User", "CONTAINS", Outgoing, RelTimestamps)
  const OUToGroupRel: RelSchema := RelSchema("Msft365Group", "CONTAINS", Outgoing, RelTimestamps)

  const OrganizationalUnitSchema: NodeSchema :=
    NodeSchema("Msft365OrganizationalUnit", OUProperties, [OUToUserRel, OUToGroupRel])

  const DeviceProperties: seq<PropertyRef> := [
    PropertyRef("id", false),
    PropertyRef("displayName", false),
    PropertyRef("operatingSystem", false),
    PropertyRef("deviceOwnership", false),
    PropertyRef("approximateLastSignInDateTime", true),
    PropertyRef("isCompliant", true)
  ]

  const DeviceOwnerRel: RelSchema := RelSchema("Msft365User", "OWNED_BY", Outgoing, RelTimestamps)

  const DeviceSchema: NodeSchema := NodeSchema("Msft365Device", DeviceProperties, [DeviceOwnerRel])

  const Registry: seq<NodeSchema> := [UserSchema, GroupSchema, OrganizationalUnitSchema, DeviceSchema]

  /** The user schema has a single outgoing MEMBER_OF relationship, to the group label. */
  lemma UserSchemaShape()
    ensures UserSchema.nodeLabel == "Msft365User"
    ensures UserSchema.relationships == [UserToGroupRel]
    ensures UserToGroupRel.relLabel == "MEMBER_OF" && UserToGroupRel.direction == Outgoing
    ensures UserToGroupRel.targetLabel == GroupSchema.nodeLabel
  {
  }

  /** Six user properties; `jobTitle` and `department` are optional. */
  lemma UserSchemaProperties()
    ensures Names(UserSchema.properties) ==
      ["id", "displayName", "userPrincipalName", "mail", "jobTitle", "department"]
    ensures RequiredNames(UserSchema.properties) == ["id", "displayName", "userPrincipalName", "mail"]
    ensures OptionalNames(UserSchema.properties) == ["jobTitle", "department"]
  {
  }

  /** The group schema declares no relationships. */
  lemma GroupSchemaShape()
    ensures GroupSchema.nodeLabel == "Msft365Group"
    ensures GroupSchema.relationships == []
  {
  }

  /** `id` and `displayName` are required; `description` and `mail` are optional. */
  lemma GroupSchemaProperties()
    ensures Names(GroupSchema.properties) == ["id", "displayName", "description", "mail"]
    ensures RequiredNames(GroupSchema.properties) == ["id", "displayName"]
    ensures OptionalNames(GroupSchema.properties) == ["description", "mail"]
  {
  }

  /** The OU schema has two outgoing CONTAINS relationships, to users then groups. */
  lemma OrganizationalUnitSchemaShape()
    ensures OrganizationalUnitSchema.nodeLabel == "Msft365OrganizationalUnit"
    ensures |OrganizationalUnitSchema.relationships| == 2
    ensures OrganizationalUnitSchema.relationships[0].targetLabel == UserSchema.nodeLabel
    ensures OrganizationalUnitSchema.relationships[1].targetLabel == GroupSchema.nodeLabel
    ensures forall r :: r in OrganizationalUnitSchema.relationships ==>
      r.relLabel == "CONTAINS" && r.direction == Outgoing
  {
  }

  /** `description` is the one optional OU property. */
  lemma OrganizationalUnitSchemaProperties()
    ensures Names(OrganizationalUnitSchema.properties) == ["id", "displayName", "description"]
    ensures RequiredNames(OrganizationalUnitSchema.properties) == ["id", "displayName"]
    ensures OptionalNames(OrganizationalUnitSchema.properties) == ["description"]
  {
  }

  /** The device schema has one outgoing OWNED_BY relationship, to the user label. */
  lemma DeviceSchemaShape()
    ensures DeviceSchema.nodeLabel == "Msft365Device"
    ensures DeviceSchema.relationships == [DeviceOwnerRel]
    ensures DeviceOwnerRel.relLabel == "OWNED_BY" && DeviceOwnerRel.direction == Outgoing
    ensures DeviceOwnerRel.targetLabel == UserSchema.nodeLabel
  {
  }

  /** Sign-in time and compliance are optional; the other four are required. */
  lemma DeviceSchemaProperties()
    ensures Names(DeviceSchema.properties) ==
      ["id", "displayName", "operatingSystem", "deviceOwnership", "approximateLastSignInDateTime", "isCompliant"]
    ensures RequiredNames(DeviceSchema.properties) == ["id", "displayName", "operatingSystem", "deviceOwnership"]
    ensures OptionalNames(DeviceSchema.properties) == ["approximateLastSignInDateTime", "isCompliant"]
  {
  }

  /** Every relationship declares `firstseen` then `lastupdated`. */
  lemma RelationshipsCarryTimestamps()
    ensures Names(RelTimestamps) == ["firstseen", "lastupdated"]
    ensures forall s, r :: s in Registry && r in s.relationships ==> r.properties == RelTimestamps
  {
  }

  /** Each schema is keyed by a required `id`, declares each property once and
      stamps its relationships with `lastupdated`. */
  lemma UserSchemaWellFormed()
    ensures WellFormedNode(UserSchema)
  {
    UserSchemaProperties();
    assert Names(RelTimestamps) == ["firstseen", "lastupdated"];
    assert NoDuplicates(["id", "displayName", "userPrincipalName", "mail", "jobTitle", "department"]);
    assert NoDuplicates(["firstseen", "lastupdated"]);
  }

  lemma GroupSchemaWellFormed()
    ensures WellFormedNode(GroupSchema)
  {
    GroupSchemaProperties();
    assert NoDuplicates(["id", "displayName", "description", "mail"]);
  }

  lemma OrganizationalUnitSchemaWellFormed()
    ensures WellFormedNode(OrganizationalUnitSchema)
  {
    OrganizationalUnitSchemaProperties();
    assert Names(RelTimestamps) == ["firstseen", "lastupdated"];
    assert NoDuplicates(["id", "displayName", "description"]);
    assert NoDuplicates(["firstseen", "lastupdated"]);
  }

  lemma DeviceSchemaWellFormed()
    ensures WellFormedNode(DeviceSchema)
  {
    DeviceSchemaProperties();
    assert Names(RelTimestamps) == ["firstseen", "lastupdated"];
    assert NoDuplicates(
      ["id", "displayName", "operatingSystem", "deviceOwnership", "approximateLastSignInDateTime", "isCompliant"]);
    assert NoDuplicates(["firstseen", "lastupdated"]);
  }

  /** The registry holds the user, group, OU and device labels, in that order. */
  lemma RegistryLabels()
    ensures Labels(Registry) == ["Msft365User", "Msft365Group", "Msft365OrganizationalUnit", "Msft365Device"]
  {
    assert Labels([DeviceSchema]) == ["Msft365Device"];
    assert Labels([OrganizationalUnitSchema, DeviceSchema]) == ["Msft365OrganizationalUnit", "Msft365Device"];
    assert Labels([GroupSchema, OrganizationalUnitSchema, DeviceSchema]) ==
      ["Msft365Group", "Msft365OrganizationalUnit", "Msft365Device"];
  }

  lemma RegistryNodesWellFormed()
    ensures forall i :: 0 <= i < |Registry| ==> WellFormedNode(Registry[i])
  {
    forall i | 0 <= i < |Registry| ensures WellFormedNode(Registry[i]) {
      if i == 0 { UserSchemaWellFormed(); }
      else if i == 1 { GroupSchemaWellFormed(); }
      else if i == 2 { OrganizationalUnitSchemaWellFormed(); }
      else { DeviceSchemaWellFormed(); }
    }
  }

  lemma RegistryTargetsRegistered()
    ensures forall i, k :: 0 <= i < |Registry| && 0 <= k < |Registry[i].relationships| ==>
      Registry[i].relationships[k].targetLabel in Labels(Registry)
  {
    RegistryLabels();
  }

  /** The labels are pairwise distinct and every relationship targets one of them. */
  lemma RegistryWellFormed()
    ensures WellFormedRegistry(Registry)
  {
    RegistryLabels();
    assert NoDuplicates(["Msft365User", "Msft365Group", "Msft365OrganizationalUnit", "Msft365Device"]);
    RegistryNodesWellFormed();
    RegistryTargetsRegistered();
  }
}
