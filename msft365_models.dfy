/**
 * The Msft365 schemas of models/msft365, one module per declaration file.
 * These are the schemas the Msft365 loaders and cleanup jobs use.
 */

/** models/msft365/userSchema.py */
module Msft365UserModel {
  import opened SchemaTypes

  const UserProperties: seq<PropertyRef> := [
    PropertyRef("id", false),
    PropertyRef("displayName", false),
    PropertyRef("userPrincipalName", false),
    PropertyRef("mail", false),
    PropertyRef("jobTitle", false),
    PropertyRef("department", false),
    PropertyRef("lastupdated", false)
  ]

  const UserToGroupRel: RelSchema :=
    RelSchema("Msft365Group", "MEMBER_OF", Outgoing, [PropertyRef("lastupdated", false)])

  const UserSchema: NodeSchema := NodeSchema("Msft365User", UserProperties, [UserToGroupRel])

  /** One outgoing MEMBER_OF relationship to Msft365Group whose properties are
      `lastupdated` alone (no `firstseen`). */
  lemma UserSchemaShape()
    ensures UserSchema.nodeLabel == "Msft365User"
    ensures UserSchema.relationships == [UserToGroupRel]
    ensures UserToGroupRel.targetLabel == "Msft365Group"
    ensures UserToGroupRel.relLabel == "MEMBER_OF" && UserToGroupRel.direction == Outgoing
    ensures Names(UserToGroupRel.properties) == ["lastupdated"]
  {
    assert Names(UserToGroupRel.properties) == ["lastupdated"];
  }

  /** Seven properties, none of them optional. */
  lemma UserSchemaProperties()
    ensures Names(UserSchema.properties) ==
      ["id", "displayName", "userPrincipalName", "mail", "jobTitle", "department", "lastupdated"]
    ensures RequiredNames(UserSchema.properties) ==
      ["id", "displayName", "userPrincipalName", "mail", "jobTitle", "department", "lastupdated"]
    ensures OptionalNames(UserSchema.properties) == []
  {
  }

  lemma UserSchemaWellFormed()
    ensures WellFormedNode(UserSchema)
  {
    UserSchemaProperties();
    assert NoDuplicates(["id", "displayName", "userPrincipalName", "mail", "jobTitle", "department", "lastupdated"]);
    assert Names(UserToGroupRel.properties) == ["lastupdated"];
  }
}

/** models/msft365/groupSchema.py */
module Msft365GroupModel {
  import opened SchemaTypes

  const GroupProperties: seq<PropertyRef> := [
    PropertyRef("id", false),
    PropertyRef("displayName", false),
    PropertyRef("description", false),
    PropertyRef("mail", false),
    PropertyRef("lastupdated", false)
  ]

  /** The declaration has no relationships field: the schema has none. */
  const GroupSchema: NodeSchema := NodeSchema("Msft365Group", GroupProperties, [])

  lemma GroupSchemaShape()
    ensures GroupSchema.nodeLabel == "Msft365Group"
    ensures GroupSchema.relationships == []
  {
  }

  /** `id`, `description`, `mail` and `lastupdated` are all required here. */
  lemma GroupSchemaProperties()
    ensures Names(GroupSchema.properties) == ["id", "displayName", "description", "mail", "lastupdated"]
    ensures RequiredNames(GroupSchema.properties) == ["id", "displayName", "description", "mail", "lastupdated"]
    ensures OptionalNames(GroupSchema.properties) == []
  {
  }

  lemma GroupSchemaWellFormed()
    ensures WellFormedNode(GroupSchema)
  {
    GroupSchemaProperties();
    assert NoDuplicates(["id", "displayName", "description", "mail", "lastupdated"]);
  }
}

/** models/msft365/ouSchema.py */
module Msft365OUModel {
  import opened SchemaTypes

  const OUProperties: seq<PropertyRef> := [
    PropertyRef("id", false),
    PropertyRef("displayName", false),
    PropertyRef("description", false),
    PropertyRef("lastupdated", false)
  ]

  const OUToUserRel: RelSchema :=
    RelSchema("Msft365User", "CONTAINS", Outgoing, [PropertyRef("lastupdated", false)])
  const OUToGroupRel: RelSchema :=
    RelSchema("Msft365Group", "CONTAINS", Outgoing, [PropertyRef("lastupdated", false)])

  const OrganizationalUnitSchema: NodeSchema :=
    NodeSchema("Msft365OrganizationalUnit", OUProperties, [OUToUserRel, OUToGroupRel])

  /** Two outgoing CONTAINS relationships, to users then groups, stamped with
      `lastupdated` only. */
  lemma OrganizationalUnitSchemaShape()
    ensures OrganizationalUnitSchema.nodeLabel == "Msft365OrganizationalUnit"
    ensures OrganizationalUnitSchema.relationships == [OUToUserRel, OUToGroupRel]
    ensures OUToUserRel.targetLabel == "Msft365User" && OUToGroupRel.targetLabel == "Msft365Group"
    ensures forall r :: r in OrganizationalUnitSchema.relationships ==>
      r.relLabel == "CONTAINS" && r.direction == Outgoing && Names(r.properties) == ["lastupdated"]
  {
    assert Names([PropertyRef("lastupdated", false)]) == ["lastupdated"];
  }

  /** Four required properties: `description` is not optional here. */
  lemma OrganizationalUnitSchemaProperties()
    ensures Names(OrganizationalUnitSchema.properties) == ["id", "displayName", "description", "lastupdated"]
    ensures RequiredNames(OrganizationalUnitSchema.properties) == ["id", "displayName", "description", "lastupdated"]
    ensures OptionalNames(OrganizationalUnitSchema.properties) == []
  {
  }

  lemma OrganizationalUnitSchemaWellFormed()
    ensures WellFormedNode(OrganizationalUnitSchema)
  {
    OrganizationalUnitSchemaProperties();
    assert NoDuplicates(["id", "displayName", "description", "lastupdated"]);
    assert Names([PropertyRef("lastupdated", false)]) == ["lastupdated"];
  }
}

/** models/msft365/deviceSchema.py */
module Msft365DeviceModel {
  import opened SchemaTypes

  const DeviceProperties: seq<PropertyRef> := [
    PropertyRef("id", false),
    PropertyRef("displayName", false),
    PropertyRef("operatingSystem", false),
    PropertyRef("deviceOwnership", false),
    PropertyRef("lastupdated", false)
  ]

  const DeviceOwnerRel: RelSchema :=
    RelSchema("Msft365User", "OWNED_BY", Outgoing, [PropertyRef("lastupdated", false)])

  const DeviceSchema: NodeSchema := NodeSchema("Msft365Device", DeviceProperties, [DeviceOwnerRel])

  /** One outgoing OWNED_BY relationship to Msft365User stamped with `lastupdated` only. */
  lemma DeviceSchemaShape()
    ensures DeviceSchema.nodeLabel == "Msft365Device"
    ensures DeviceSchema.relationships == [DeviceOwnerRel]
    ensures DeviceOwnerRel.targetLabel == "Msft365User"
    ensures DeviceOwnerRel.relLabel == "OWNED_BY" && DeviceOwnerRel.direction == Outgoing
    ensures Names(DeviceOwnerRel.properties) == ["lastupdated"]
  {
    assert Names(DeviceOwnerRel.properties) == ["lastupdated"];
  }

  /** Five required properties, none optional. */
  lemma DeviceSchemaProperties()
    ensures Names(DeviceSchema.properties) ==
      ["id", "displayName", "operatingSystem", "deviceOwnership", "lastupdated"]
    ensures RequiredNames(DeviceSchema.properties) ==
      ["id", "displayName", "operatingSystem", "deviceOwnership", "lastupdated"]
    ensures OptionalNames(DeviceSchema.properties) == []
  {
  }

  lemma DeviceSchemaWellFormed()
    ensures WellFormedNode(DeviceSchema)
  {
    DeviceSchemaProperties();
    assert NoDuplicates(["id", "displayName", "operatingSystem", "deviceOwnership", "lastupdated"]);
    assert Names(DeviceOwnerRel.properties) == ["lastupdated"];
  }
}
