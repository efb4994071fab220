/**
 * The O365 node and relationship schemas (intel/o365/schema.py) as constants.
 */
module O365Schema {
  import opened SchemaTypes

  /** `firstseen` and `lastupdated`, the property list of every O365 relationship. */
  const RelTimestamps: seq<PropertyRef> := [PropertyRef("firstseen", false), PropertyRef("lastupdated", false)]

  const UserProperties: seq<PropertyRef> := [
    PropertyRef("id", false),
    PropertyRef("displayName", false),
    PropertyRef("userPrincipalName", false),
    PropertyRef("mail", false),
    PropertyRef("jobTitle", true),
    PropertyRef("department", true)
  ]

  const UserToGroupRel: RelSchema := RelSchema("O365Group", "MEMBER_OF", Outgoing, RelTimestamps)

  const UserSchema: NodeSchema := NodeSchema("O365User", UserProperties, [UserToGroupRel])

  const GroupProperties: seq<PropertyRef> := [
    PropertyRef("id", false),
    PropertyRef("displayName", false),
    PropertyRef("description", true),
    PropertyRef("mail", true)
  ]

  const GroupSchema: NodeSchema := NodeSchema("O365Group", GroupProperties, [])

  const OUProperties: seq<PropertyRef> := [
    PropertyRef("id", false),
    PropertyRef("displayName", false),
    PropertyRef("description", true)
  ]

  const OUToUserRel: RelSchema := RelSchema("O365User", "CONTAINS", Outgoing, RelTimestamps)
  const OUToGroupRel: RelSchema := RelSchema("O365Group", "CONTAINS", Outgoing, RelTimestamps)

  const OrganizationalUnitSchema: NodeSchema :=
    NodeSchema("O365OrganizationalUnit", OUProperties, [OUToUserRel, OUToGroupRel])

  const Registry: seq<NodeSchema> := [UserSchema, GroupSchema, OrganizationalUnitSchema]

  /** The user schema has a single outgoing MEMBER_OF relationship, to the group label. */
  lemma UserSchemaShape()
    ensures UserSchema.nodeLabel == "O365User"
    ensures UserSchema.relationships == [UserToGroupRel]
    ensures UserToGroupRel.relLabel == "MEMBER_OF" && UserToGroupRel.direction == Outgoing
    ensures UserToGroupRel.targetLabel == GroupSchema.nodeLabel
  {
  }

  /** Six user properties; `jobTitle` and `department` are optional. */
  lemma UserSchemaProperties()
    ensures Names(UserSchema.properties) ==
      ["id", "displayName", "userPrincipalName", "mail", "jobTitle", "department"]
    ensures RequiredNames(UserSchema.properties) == ["id", "displayName", "userPrincipalName", "mail"]
    ensures OptionalNames(UserSchema.properties) == ["jobTitle", "department"]
  {
  }

  /** The group schema declares no relationships. */
  lemma GroupSchemaShape()
    ensures GroupSchema.nodeLabel == "O365Group"
    ensures GroupSchema.relationships == []
  {
  }

  /** `id` and `displayName` are required; `description` and `mail` are optional. */
  lemma GroupSchemaProperties()
    ensures Names(GroupSchema.properties) == ["id", "displayName", "description", "mail"]
    ensures RequiredNames(GroupSchema.properties) == ["id", "displayName"]
    ensures OptionalNames(GroupSchema.properties) == ["description", "mail"]
  {
  }

  /** The OU schema has two outgoing CONTAINS relationships, to users then groups. */
  lemma OrganizationalUnitSchemaShape()
    ensures OrganizationalUnitSchema.nodeLabel == "O365OrganizationalUnit"
    ensures |OrganizationalUnitSchema.relationships| == 2
    ensures OrganizationalUnitSchema.relationships[0].targetLabel == UserSchema.nodeLabel
    ensures OrganizationalUnitSchema.relationships[1].targetLabel == GroupSchema.nodeLabel
    ensures forall r :: r in OrganizationalUnitSchema.relationships ==>
      r.relLabel == "CONTAINS" && r.direction == Outgoing
  {
  }

  /** `description` is the one optional OU property. */
  lemma OrganizationalUnitSchemaProperties()
    ensures Names(OrganizationalUnitSchema.properties) == ["id", "displayName", "description"]
    ensures RequiredNames(OrganizationalUnitSchema.properties) == ["id", "displayName"]
    ensures OptionalNames(OrganizationalUnitSchema.properties) == ["description"]
  {
  }

  /** Every relationship declares `firstseen` then `lastupdated`. */
  lemma RelationshipsCarryTimestamps()
    ensures Names(RelTimestamps) == ["firstseen", "lastupdated"]
    ensures forall s, r :: s in Registry && r in s.relationships ==> r.properties == RelTimestamps
  {
  }

  /** Each schema is keyed by a required `id`, declares each property once and
      stamps its relationships with `lastupdated`. */
  lemma UserSchemaWellFormed()
    ensures WellFormedNode(UserSchema)
  {
    UserSchemaProperties();
    assert Names(RelTimestamps) == ["firstseen", "lastupdated"];
    assert NoDuplicates(["id", "displayName", "userPrincipalName", "mail", "jobTitle", "department"]);
    assert NoDuplicates(["firstseen", "lastupdated"]);
  }

  lemma GroupSchemaWellFormed()
    ensures WellFormedNode(GroupSchema)
  {
    GroupSchemaProperties();
    assert NoDuplicates(["id", "displayName", "description", "mail"]);
  }

  lemma OrganizationalUnitSchemaWellFormed()
    ensures WellFormedNode(OrganizationalUnitSchema)
  {
    OrganizationalUnitSchemaProperties();
    assert Names(RelTimestamps) == ["firstseen", "lastupdated"];
    assert NoDuplicates(["id", "displayName", "description"]);
    assert NoDuplicates(["firstseen", "lastupdated"]);
  }

  /** The registry holds the user, group and OU labels, in that order. */
  lemma RegistryLabels()
    ensures Labels(Registry) == ["O365User", "O365Group", "O365OrganizationalUnit"]
  {
    assert Labels([OrganizationalUnitSchema]) == ["O365OrganizationalUnit"];
    assert Labels([GroupSchema, OrganizationalUnitSchema]) == ["O365Group", "O365OrganizationalUnit"];
  }

  lemma RegistryNodesWellFormed()
    ensures forall i :: 0 <= i < |Registry| ==> WellFormedNode(Registry[i])
  {
    UserSchemaWellFormed();
    GroupSchemaWellFormed();
    OrganizationalUnitSchemaWellFormed();
  }

  lemma RegistryTargetsRegistered()
    ensures forall i, k :: 0 <= i < |Registry| && 0 <= k < |Registry[i].relationships| ==>
      Registry[i].relationships[k].targetLabel in Labels(Registry)
  {
    RegistryLabels();
  }

  /** The labels are pairwise distinct and every relationship targets one of them. */
  lemma RegistryWellFormed()
    ensures WellFormedRegistry(Registry)
  {
    RegistryLabels();
    assert NoDuplicates(["O365User", "O365Group", "O365OrganizationalUnit"]);
    RegistryNodesWellFormed();
    RegistryTargetsRegistered();
  }
}
