/** The File entity's content hash: recomputed from `blob` before every
    insert and update. The digest (MD5) and the encoding (URL-safe base64,
    decoded as UTF-8) are parameters. */
module File {
  import opened Values
  import opened Attributes
  import opened Mixin
  import Schema

  type Digest = seq<bv8> -> seq<bv8>
  type Encode = seq<bv8> -> string

  /** The value `hasher` gives `hash` for a stored `blob`. The ORM lets
      only bytes or `None` into `blob`; `len(None)` raises. */
  function BlobHash(blob: Value, digest: Digest, encode: Encode): (r: Result<Value, Error>)
    ensures r.Success? <==> blob.Bytes?
    ensures r == Success(Null) <==> blob == Bytes([])
    ensures blob.Bytes? && |blob.b| > 0 ==> r == Success(Str(encode(digest(blob.b))))
  {
    match blob
    case Bytes(b) => if |b| > 0 then Success(Str(encode(digest(b)))) else Success(Null)
    case _ => Failure(TypeError("object has no len()"))
  }

  /** The state `hasher` leaves behind when the entity's state is `vals`:
      `hash` set from `blob` and every other attribute as it was, or the
      exception it raises. */
  function Hashed(vals: map<string, Value>, digest: Digest, encode: Encode): (r: Result<map<string, Value>, Error>)
    requires "blob" in vals
    ensures r.Success? <==> vals["blob"].Bytes?
    ensures r.Failure? ==> r == Failure(BlobHash(vals["blob"], digest, encode).error)
    ensures r.Success? ==> && r.value.Keys == vals.Keys + {"hash"}
                           && r.value["hash"] == BlobHash(vals["blob"], digest, encode).value
                           && forall k :: k in vals && k != "hash" ==> r.value[k] == vals[k]
  {
    match BlobHash(vals["blob"], digest, encode)
    case Success(h) => Success(vals["hash" := h])
    case Failure(e) => Failure(e)
  }

  /** Two files with the same content end with the same hash, whatever
      else differs between them: `hasher` succeeds for both or raises the
      same exception for both. */
  lemma SameContentSameHash(f: map<string, Value>, g: map<string, Value>, digest: Digest, encode: Encode)
    requires "blob" in f && "blob" in g && f["blob"] == g["blob"]
    ensures Hashed(f, digest, encode).Success? == Hashed(g, digest, encode).Success?
    ensures Hashed(f, digest, encode).Success? ==>
              Hashed(f, digest, encode).value["hash"] == Hashed(g, digest, encode).value["hash"]
    ensures Hashed(f, digest, encode).Failure? ==> Hashed(f, digest, encode) == Hashed(g, digest, encode)
  {
  }

  /** Running `hasher` again on the state it produced changes nothing, so
      the hash an update stores is the one the next update would store. */
  lemma HashedIdempotent(vals: map<string, Value>, digest: Digest, encode: Encode)
    requires "blob" in vals && Hashed(vals, digest, encode).Success?
    ensures var s := Hashed(vals, digest, encode).value;
            "blob" in s && Hashed(s, digest, encode) == Success(s)
  {
    var s := Hashed(vals, digest, encode).value;
    assert s["blob"] == vals["blob"];
    assert s["hash" := s["hash"]] == s;
  }

  /** The File table declares both attributes the hash hook touches. */
  lemma BlobAndHashDeclared()
    ensures "blob" in Names(Schema.FileAttrs) && "hash" in Names(Schema.FileAttrs)
  {
    assert Schema.FileAttrs[3].name == "blob" && Schema.FileAttrs[4].name == "hash";
  }

  /** `hasher`: sets `hash` from `blob` and changes nothing else; raises,
      changing nothing, when `blob` has no length. */
  method Hasher(f: Entity, digest: Digest, encode: Encode) returns (r: Outcome<Error>)
    requires f.Valid() && f.attrs == Schema.FileAttrs
    modifies f
    ensures f.Valid()
    ensures match Hashed(old(f.vals), digest, encode)
            case Success(s) => r == Pass && f.vals == s
            case Failure(e) => r == Fail(e) && f.vals == old(f.vals)
  {
    BlobAndHashDeclared();
    var blob := f.vals["blob"];
    if !blob.Bytes? {
      return Fail(TypeError("object has no len()"));
    }
    if |blob.b| > 0 {
      f.vals := f.vals["hash" := Str(encode(digest(blob.b)))];
    } else {
      f.vals := f.vals["hash" := Null];
    }
    return Pass;
  }

  /** `before_insert`: runs `hasher`. */
  method BeforeInsert(f: Entity, digest: Digest, encode: Encode) returns (r: Outcome<Error>)
    requires f.Valid() && f.attrs == Schema.FileAttrs
    modifies f
    ensures f.Valid()
    ensures match Hashed(old(f.vals), digest, encode)
            case Success(s) => r == Pass && f.vals == s
            case Failure(e) => r == Fail(e) && f.vals == old(f.vals)
  {
    BlobAndHashDeclared();
    r := Hasher(f, digest, encode);
  }

  /** `before_update`: runs `hasher`. */
  method BeforeUpdate(f: Entity, digest: Digest, encode: Encode) returns (r: Outcome<Error>)
    requires f.Valid() && f.attrs == Schema.FileAttrs
    modifies f
    ensures f.Valid()
    ensures match Hashed(old(f.vals), digest, encode)
            case Success(s) => r == Pass && f.vals == s
            case Failure(e) => r == Fail(e) && f.vals == old(f.vals)
  {
    BlobAndHashDeclared();
    r := Hasher(f, digest, encode);
  }
}
