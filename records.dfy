/**
 * Raw API records and the field-mapping normaliser shared by both connectors.
 *
 * A record fetched from the Microsoft Graph API, or produced by a transform,
 * is a flat dictionary from field names to scalar JSON values.
 */
module Records {

  datatype Option<T> = None | Some(value: T)

  /** A scalar JSON value; `Null` is Python's `None`. */
  datatype Value = Null | Str(s: string) | Int(i: int) | Bool(b: bool)

  type Record = map<string, Value>

  /** Python's `r.get(key)`: the stored value, or `None` when the key is absent. */
  function Get(r: Record, key: string): Value
  {
    if key in r then r[key] else Null
  }

  /** Python truthiness of a scalar: `None`, `""`, `0` and `False` are false. */
  predicate Truthy(v: Value)
  {
    match v
    case Null => false
    case Str(s) => s != ""
    case Int(i) => i != 0
    case Bool(b) => b
  }

  /** Python's `r.get(key, default)`: the default only when the key is absent
      (a stored `None` is returned as it is). */
  function GetOr(r: Record, key: string, default: Value): Value
  {
    if key in r then r[key] else default
  }

  /** The records an API call returns for a key (a group's members, a device's
      owners); the call itself happens outside the model. */
  function Fetched(responses: map<Value, seq<Record>>, key: Value): seq<Record>
  {
    if key in responses then responses[key] else []
  }

  /** The dictionary literal `{f: raw.get(f) for f in fields}`. */
  function Project(raw: Record, fields: seq<string>): Record
  {
    map f | f in fields :: Get(raw, f)
  }

  /** One projected record per input record, in input order. */
  function ProjectAll(raws: seq<Record>, fields: seq<string>): seq<Record>
  {
    seq(|raws|, i requires 0 <= i < |raws| => Project(raws[i], fields))
  }

  /** The keys written by the user, group and OU transforms of both connectors. */
  const UserFields: seq<string> := ["id", "displayName", "userPrincipalName", "mail", "jobTitle", "department"]
  const GroupFields: seq<string> := ["id", "displayName", "description", "mail"]
  const OUFields: seq<string> := ["id", "displayName", "description"]

  function KeySet(fields: seq<string>): set<string>
  {
    set f | f in fields
  }

  /** A projection has exactly the listed keys; a listed field absent from the raw
      record becomes `None`; a field that is not listed is dropped. */
  lemma ProjectShape(raw: Record, fields: seq<string>)
    ensures Project(raw, fields).Keys == KeySet(fields)
    ensures forall f :: f in fields ==> Project(raw, fields)[f] == Get(raw, f)
    ensures forall f :: f in fields && f !in raw ==> Project(raw, fields)[f] == Null
    ensures forall k :: k in raw && k !in fields ==> k !in Project(raw, fields)
  {
  }

  /** Projection preserves length and order and gives every output the same key set. */
  lemma ProjectAllShape(raws: seq<Record>, fields: seq<string>)
    ensures |ProjectAll(raws, fields)| == |raws|
    ensures forall i :: 0 <= i < |raws| ==>
      ProjectAll(raws, fields)[i].Keys == KeySet(fields) &&
      forall f :: f in fields ==> ProjectAll(raws, fields)[i][f] == Get(raws[i], f)
  {
  }

  /** The user transforms emit 6 distinct keys. */
  lemma UserFieldCount()
    ensures |KeySet(UserFields)| == 6
  {
    assert KeySet(UserFields) == {"id", "displayName", "userPrincipalName", "mail", "jobTitle", "department"};
  }

  /** The group transforms emit 4 distinct keys. */
  lemma GroupFieldCount()
    ensures |KeySet(GroupFields)| == 4
  {
    assert KeySet(GroupFields) == {"id", "displayName", "description", "mail"};
  }

  /** The OU transforms emit 3 distinct keys. */
  lemma OUFieldCount()
    ensures |KeySet(OUFields)| == 3
  {
    assert KeySet(OUFields) == {"id", "displayName", "description"};
  }
}
