/** The attribute tables of the catalog entities, in declaration order,
    each led by the primary key `id` that the ORM adds. Where a declaration
    gives no `nullable`, the ORM's default is used: not nullable for
    Required attributes and for Optional strings, nullable for other
    Optional attributes. */
module Schema {
  import opened Values
  import opened Attributes
  import opened Mixin
  import MixinProperties

  function PrimaryKey(): Attr { Attr("id", true, false, false, IntKind) }

  /** Optional attribute of a plain type. */
  function Opt(name: string, nullable: bool, kind: Kind): Attr { Attr(name, false, nullable, false, kind) }

  /** Required attribute of a plain type. */
  function Req(name: string, nullable: bool, kind: Kind): Attr { Attr(name, true, nullable, false, kind) }

  /** A to-many relation (a `Set`), never Required. */
  function Many(name: string, nullable: bool, entity: string): Attr { Attr(name, false, nullable, true, EntityKind(entity)) }

  const BaseAttrs: seq<Attr> := [
    PrimaryKey(),
    Opt("created", true, DateTimeKind),
    Opt("updated", true, DateTimeKind)
  ]

  const UserAttrs: seq<Attr> := [
    PrimaryKey(),
    Opt("name", false, StrKind),
    Opt("email", true, StrKind),
    Opt("username", true, StrKind),
    Opt("password", false, StrKind),   // a Password attribute: an Optional string
    Opt("fbid", true, StrKind),
    Opt("ggid", true, StrKind),
    Many("oauth", false, "OAuth")
  ]

  const OAuthAttrs: seq<Attr> := [
    PrimaryKey(),
    Req("provider", false, StrKind),
    Req("puid", true, StrKind),
    Opt("access_token", false, StrKind),
    Opt("refresh_token", false, StrKind),
    Attr("user", true, false, true, EntityKind("User"))
  ]

  const FileAttrs: seq<Attr> := [
    PrimaryKey(),
    Req("created", false, DateTimeKind),
    Req("name", false, StrKind),
    Opt("blob", true, BytesKind),
    Opt("hash", true, StrKind),
    Opt("type", true, StrKind)
  ]

  const CategoryAttrs: seq<Attr> := [
    PrimaryKey(),
    Req("created", false, DateTimeKind),
    Opt("author", true, IntKind),
    Req("title", false, StrKind),
    Opt("description", true, StrKind),
    Many("items", false, "Item")
  ]

  const ItemAttrs: seq<Attr> := [
    PrimaryKey(),
    Req("created", false, DateTimeKind),
    Opt("author", true, IntKind),
    Opt("image", true, IntKind),
    Req("title", false, StrKind),
    Opt("description", true, StrKind),
    Many("categories", true, "Category")
  ]

  /** Every entity declares each attribute once, so the per-attribute
      properties of the mixin apply to all of them. */
  lemma TablesHaveDistinctNames()
    ensures DistinctNames(BaseAttrs) && DistinctNames(UserAttrs) && DistinctNames(OAuthAttrs)
    ensures DistinctNames(FileAttrs) && DistinctNames(CategoryAttrs) && DistinctNames(ItemAttrs)
  {
  }

  /** `update({'title': ''})` on an Item sets the title to `''` and raises
      nothing, whatever the coercion and the handler; `update({})` changes
      nothing. */
  lemma ItemTitleUpdates(coerce: Convert, handler: Option<Convert>, vals: map<string, Value>)
    ensures var r := UpdateAll(ItemAttrs, map["title" := Str("")], coerce, handler, {}, vals);
            r.failure == None && "title" in r.vals && r.vals["title"] == Str("")
    ensures UpdateAll(ItemAttrs, map[], coerce, handler, {}, vals) == Updated(vals, None)
  {
    var d := map["title" := Str("")];
    TablesHaveDistinctNames();
    MixinProperties.UpdateRaisesOnlyInConversions(ItemAttrs, d, coerce, handler, {}, vals);
    assert forall i, e :: 0 <= i < |ItemAttrs| ==> !MixinProperties.UpdateRaisesAt(ItemAttrs[i], d, coerce, handler, {}, e);
    MixinProperties.UpdateWritesEmptyString(ItemAttrs, d, coerce, handler, {}, vals, 4);
    MixinProperties.UpdateRaisesOnlyInConversions(ItemAttrs, map[], coerce, handler, {}, vals);
  }

  /** A coercion in the manner of `int(val)`: it rejects `''` and keeps
      every other value. */
  function RejectEmpty(kind: Kind, val: Value): Result<Value, Error>
  {
    if val == Str("") then Failure(ValueError("invalid literal for int()")) else Success(val)
  }

  /** `from_dict` and `update` disagree on the same input: with a coercion
      that rejects `''`, `{'author': '', 'title': 'Hat'}` clears an Item's
      author through `update` but makes `from_dict` raise. */
  lemma EmptyAuthorDisagreement(handler: Option<Convert>, vals: map<string, Value>)
    ensures var d := map["author" := Str(""), "title" := Str("Hat")];
            var u := UpdateAll(ItemAttrs, d, RejectEmpty, handler, {}, vals);
            && u.failure == None && "author" in u.vals && u.vals["author"] == Str("")
            && ConstructorArgs(ItemAttrs, d, RejectEmpty, handler, {}).Failure?
  {
    var d := map["author" := Str(""), "title" := Str("Hat")];
    TablesHaveDistinctNames();
    MixinProperties.UpdateRaisesOnlyInConversions(ItemAttrs, d, RejectEmpty, handler, {}, vals);
    assert forall i, e :: 0 <= i < |ItemAttrs| ==> !MixinProperties.UpdateRaisesAt(ItemAttrs[i], d, RejectEmpty, handler, {}, e);
    MixinProperties.UpdateWritesEmptyString(ItemAttrs, d, RejectEmpty, handler, {}, vals, 2);
    MixinProperties.FromDictRaisesOnlyInConversions(ItemAttrs, d, RejectEmpty, handler, {}, map[]);
    assert MixinProperties.ArgRaisesAt(ItemAttrs[2], d, RejectEmpty, handler, {}, ValueError("invalid literal for int()"));
  }
}
