/** The User entity's lifecycle hooks: a user must be able to log in, by
    email and password or through at least one OAuth link. */
module User {
  import opened Values
  import opened Mixin
  import Password

  /** The attribute values the hooks read, typed as the ORM keeps them: an
      optional e-mail, a password string and the set of OAuth links. */
  predicate Typed(vals: map<string, Value>)
  {
    && "email" in vals && (vals["email"].Null? || vals["email"].Str?)
    && "password" in vals && vals["password"].Str?
    && "oauth" in vals && vals["oauth"].Refs?
  }

  const LoginMissing: Error := Exception("Must provide email and password, or oauth.")

  /** The condition both hooks check, with Python truthiness. */
  function LoginCheck(vals: map<string, Value>): (r: Outcome<Error>)
    requires Typed(vals)
    ensures r.Pass? <==>
              (vals["email"].Str? && vals["email"].s != "" && vals["password"].s != "")
              || vals["oauth"].keys != {}
    ensures r.Fail? ==> r.error == LoginMissing
  {
    if !((Truthy(vals["email"]) && Truthy(vals["password"])) || Truthy(vals["oauth"])) then Fail(LoginMissing)
    else Pass
  }

  /** `before_insert`: raises unless the user has a login method. */
  function BeforeInsert(u: Entity): (r: Outcome<Error>)
    reads u
    requires Typed(u.vals)
    ensures r.Fail? <==> !(u.vals["email"].Str? && u.vals["email"].s != "" && u.vals["password"].s != "")
                         && u.vals["oauth"].keys == {}
  {
    LoginCheck(u.vals)
  }

  /** `before_update`: the same check as on insert. */
  function BeforeUpdate(u: Entity): (r: Outcome<Error>)
    reads u
    requires Typed(u.vals)
    ensures r == BeforeInsert(u)
  {
    LoginCheck(u.vals)
  }

  /** A user with an e-mail and a password and no OAuth link is accepted;
      one with none of the three is refused. */
  lemma SignupExamples(vals: map<string, Value>)
    requires Typed(vals)
    ensures LoginCheck(vals["email" := Str("a@x.com")]["password" := Str("secret")]["oauth" := Refs({})]) == Pass
    ensures LoginCheck(vals["email" := Null]["password" := Str("")]["oauth" := Refs({})]) == Fail(LoginMissing)
  {
  }

  /** Hashing the password on write never changes the outcome of the check,
      as long as the scheme never produces an empty hash. */
  lemma HashedPasswordKeepsLogin(vals: map<string, Value>, p: string,
                                 identify: string -> bool, hash: string -> string)
    requires Typed(vals)
    requires forall q :: hash(q) != ""
    ensures LoginCheck(vals["password" := Str(Password.Validate(p, identify, hash))])
         == LoginCheck(vals["password" := Str(p)])
  {
  }
}
