/**
 * The declarative schema vocabulary: property references, relationship
 * schemas and node schemas, as the frozen dataclasses of the connectors
 * declare them, with the checks that relate a record to a schema.
 */
module SchemaTypes {
  import opened Records

  /** A declared property; an `optional` one may be missing from a record. */
  datatype PropertyRef = PropertyRef(name: string, optional: bool)

  datatype Direction = Outgoing | Inward

  /** An outgoing relationship schema of a node schema. */
  datatype RelSchema = RelSchema(targetLabel: string, relLabel: string, direction: Direction, properties: seq<PropertyRef>)

  datatype NodeSchema = NodeSchema(nodeLabel: string, properties: seq<PropertyRef>, relationships: seq<RelSchema>)

  /** The declared property names, in declaration order. */
  function Names(ps: seq<PropertyRef>): seq<string>
  {
    if ps == [] then [] else [ps[0].name] + Names(ps[1..])
  }

  /** The names of the required (non-optional) properties, in declaration order. */
  function RequiredNames(ps: seq<PropertyRef>): seq<string>
  {
    if ps == [] then [] else (if ps[0].optional then [] else [ps[0].name]) + RequiredNames(ps[1..])
  }

  /** The names of the optional properties, in declaration order. */
  function OptionalNames(ps: seq<PropertyRef>): seq<string>
  {
    if ps == [] then [] else (if ps[0].optional then [ps[0].name] else []) + OptionalNames(ps[1..])
  }

  /** No name occurs twice. */
  predicate NoDuplicates(names: seq<string>)
  {
    forall i, j :: 0 <= i < j < |names| ==> names[i] != names[j]
  }

  /** Every required property is present in the record with a non-null value. */
  predicate Satisfies(r: Record, s: NodeSchema)
  {
    forall n :: n in RequiredNames(s.properties) ==> n in r && r[n] != Null
  }

  /** A relationship schema carries the run tag. */
  predicate WellFormedRel(rel: RelSchema)
  {
    && "lastupdated" in Names(rel.properties)
    && NoDuplicates(Names(rel.properties))
  }

  /** A node schema is keyed by a required `id`, declares each property once and
      stamps every relationship with the run tag. */
  predicate WellFormedNode(s: NodeSchema)
  {
    && "id" in RequiredNames(s.properties)
    && NoDuplicates(Names(s.properties))
    && forall i :: 0 <= i < |s.relationships| ==> WellFormedRel(s.relationships[i])
  }

  /** The labels of a registry, in registration order. */
  function Labels(schemas: seq<NodeSchema>): seq<string>
  {
    if schemas == [] then [] else [schemas[0].nodeLabel] + Labels(schemas[1..])
  }

  /** A set of node schemas registered together: labels are pairwise distinct and
      every relationship points at a registered label. */
  predicate WellFormedRegistry(schemas: seq<NodeSchema>)
  {
    && (forall i :: 0 <= i < |schemas| ==> WellFormedNode(schemas[i]))
    && NoDuplicates(Labels(schemas))
    && (forall i, k :: 0 <= i < |schemas| && 0 <= k < |schemas[i].relationships| ==>
          schemas[i].relationships[k].targetLabel in Labels(schemas))
  }

  /** Every declared name is either required or optional, and when the names
      are distinct no name is both. */
  lemma {:induction false} RequiredOptionalSplit(ps: seq<PropertyRef>)
    ensures forall n :: n in Names(ps) <==> n in RequiredNames(ps) || n in OptionalNames(ps)
    ensures NoDuplicates(Names(ps)) ==> forall n :: n in RequiredNames(ps) ==> n !in OptionalNames(ps)
  {
    if ps != [] {
      RequiredOptionalSplit(ps[1..]);
      var ns, tail := Names(ps), Names(ps[1..]);
      assert ns == [ps[0].name] + tail;
      if NoDuplicates(ns) {
        assert NoDuplicates(tail) by {
          forall i, j | 0 <= i < j < |tail| ensures tail[i] != tail[j] {
            assert tail[i] == ns[i + 1] && tail[j] == ns[j + 1];
          }
        }
        assert ps[0].name !in tail by {
          forall k | 0 <= k < |tail| ensures tail[k] != ps[0].name {
            assert tail[k] == ns[k + 1] && ns[0] == ps[0].name;
          }
        }
      }
    }
  }

  /** A projection onto fields that include every required name satisfies the
      schema exactly when the source record has non-null required values. */
  lemma ProjectSatisfies(raw: Record, fields: seq<string>, s: NodeSchema)
    requires forall n :: n in RequiredNames(s.properties) ==> n in fields
    ensures Satisfies(Project(raw, fields), s) <==>
      forall n :: n in RequiredNames(s.properties) ==> Get(raw, n) != Null
  {
  }
}
