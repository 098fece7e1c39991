/** Attribute metadata: the explicit per-entity field table that stands for
    Pony's reflective `_attrs_` list. */
module Attributes {
  import opened Values

  /** One declared attribute. `required` is `isinstance(attr, Required)`
      (so it holds for the primary key as well); a Pony `Set` is an
      optional relation. */
  datatype Attr = Attr(name: string, required: bool, nullable: bool, isRelation: bool, kind: Kind)

  /** Keys that the generic marshalling never reads from its input. */
  const SystemKeys: set<string> := {"created", "updated", "id"}

  /** The declared attribute names. */
  function Names(attrs: seq<Attr>): (r: set<string>)
    ensures forall j :: 0 <= j < |attrs| ==> attrs[j].name in r
  {
    if attrs == [] then {} else {attrs[0].name} + Names(attrs[1..])
  }

  /** Every name in `Names` is the name of some attribute of the table. */
  lemma {:induction false} NameIndex(attrs: seq<Attr>, k: string)
    requires k in Names(attrs)
    ensures exists j :: 0 <= j < |attrs| && attrs[j].name == k
  {
    if attrs[0].name != k {
      NameIndex(attrs[1..], k);
      var j :| 0 <= j < |attrs[1..]| && attrs[1..][j].name == k;
      assert attrs[j + 1].name == k;
    }
  }

  /** An entity declares each attribute name once. */
  predicate DistinctNames(attrs: seq<Attr>)
  {
    forall i, j :: 0 <= i < j < |attrs| ==> attrs[i].name != attrs[j].name
  }

  /** `d.get(key, None)`. */
  function Lookup(d: map<string, Value>, key: string): Value
  {
    if key in d then d[key] else Null
  }

  /** The part of `m` whose keys lie in `keys`. */
  function Project(m: map<string, Value>, keys: set<string>): (r: map<string, Value>)
    ensures r.Keys == m.Keys * keys
    ensures forall k :: k in r ==> r[k] == m[k]
  {
    map k | k in m && k in keys :: m[k]
  }
}
