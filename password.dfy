/** The Password attribute: an Optional string that is hashed on every
    write unless it is empty or already a hash. The key-derivation scheme is
    a parameter: `identify` recognises its hashes and `hash` makes one. */
module Password {

  /** `Password.validate`: the value the attribute stores when `val` is
      written (after the ORM's own string conversion). */
  function Validate(val: string, identify: string -> bool, hash: string -> string): (r: string)
    ensures val == "" || identify(val) ==> r == val
    ensures val != "" && !identify(val) ==> r == hash(val)
  {
    if !(val == "" || identify(val)) then hash(val) else val
  }

  /** What a hashing scheme promises of its own output: the identification
      predicate recognises every hash it makes. */
  ghost predicate RecognisesOwnHashes(identify: string -> bool, hash: string -> string)
  {
    forall p :: identify(hash(p))
  }

  /** What is stored is empty or recognisable as a hash: plaintext is never
      stored unless it already has the form of a hash. */
  lemma StoredIsEmptyOrHash(val: string, identify: string -> bool, hash: string -> string)
    requires RecognisesOwnHashes(identify, hash)
    ensures var r := Validate(val, identify, hash);
            r == "" || identify(r)
  {
  }

  /** Saving again what was stored changes nothing: a loaded hash is not
      hashed a second time. */
  lemma ValidateIdempotent(val: string, identify: string -> bool, hash: string -> string)
    requires RecognisesOwnHashes(identify, hash)
    ensures Validate(Validate(val, identify, hash), identify, hash) == Validate(val, identify, hash)
  {
  }

  /** The empty string, the "no password" sentinel, survives validation,
      and only it becomes empty when the scheme never makes an empty hash. */
  lemma ValidateKeepsEmptiness(val: string, identify: string -> bool, hash: string -> string)
    requires forall p :: hash(p) != ""
    ensures (Validate(val, identify, hash) == "") <==> (val == "")
  {
  }
}
