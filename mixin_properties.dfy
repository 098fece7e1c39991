/** What `update`, `from_dict` and `to_dict` promise, for every attribute
    table, input dictionary, coercion and relation handler. */
module MixinProperties {
  import opened Values
  import opened Attributes
  import opened Mixin

  // ---------------------------------------------------------------------
  // update
  // ---------------------------------------------------------------------

  /** A key that no attribute's step writes keeps its value through
      `update`, whether or not the loop stops on an exception. */
  lemma {:induction false} UpdateKeepsKey(attrs: seq<Attr>, d: map<string, Value>, coerce: Convert,
                                          handler: Option<Convert>, exclude: set<string>,
                                          vals: map<string, Value>, k: string)
    requires forall j :: 0 <= j < |attrs| && attrs[j].name == k ==>
               !UpdateStep(attrs[j], d, coerce, handler, exclude).Assign?
    ensures var r := UpdateAll(attrs, d, coerce, handler, exclude, vals).vals;
            (k in r <==> k in vals) && (k in vals ==> r[k] == vals[k])
    decreases |attrs|
  {
    if attrs != [] {
      assert forall j :: 0 <= j < |attrs| - 1 ==> attrs[1..][j] == attrs[j + 1];
      match UpdateStep(attrs[0], d, coerce, handler, exclude)
      case Skip =>
        UpdateKeepsKey(attrs[1..], d, coerce, handler, exclude, vals, k);
      case Assign(v) =>
        UpdateKeepsKey(attrs[1..], d, coerce, handler, exclude, vals[attrs[0].name := v], k);
      case Raise(e) =>
    }
  }

  /** After an `update` that raised nothing, each attribute holds what its
      own step says: the assigned value, or its old value. */
  lemma {:induction false} UpdateAt(attrs: seq<Attr>, d: map<string, Value>, coerce: Convert,
                                    handler: Option<Convert>, exclude: set<string>,
                                    vals: map<string, Value>, i: int)
    requires DistinctNames(attrs) && 0 <= i < |attrs|
    requires UpdateAll(attrs, d, coerce, handler, exclude, vals).failure == None
    ensures var k := attrs[i].name;
            var r := UpdateAll(attrs, d, coerce, handler, exclude, vals).vals;
            match UpdateStep(attrs[i], d, coerce, handler, exclude)
            case Skip => (k in r <==> k in vals) && (k in vals ==> r[k] == vals[k])
            case Assign(v) => k in r && r[k] == v
            case Raise(_) => false
    decreases |attrs|
  {
    var rest := attrs[1..];
    assert forall j :: 0 <= j < |rest| ==> rest[j] == attrs[j + 1];
    assert DistinctNames(rest);
    var vals' := match UpdateStep(attrs[0], d, coerce, handler, exclude)
                 case Assign(v) => vals[attrs[0].name := v]
                 case _ => vals;
    if i == 0 {
      UpdateKeepsKey(rest, d, coerce, handler, exclude, vals', attrs[0].name);
    } else {
      UpdateAt(rest, d, coerce, handler, exclude, vals', i - 1);
      if UpdateStep(attrs[0], d, coerce, handler, exclude).Assign? {
        assert attrs[0].name != attrs[i].name;
      }
    }
  }

  /** `update` never changes `created`, `updated`, `id`, an excluded key,
      an undeclared key, or a key that `d` does not supply or maps to
      `None`; this holds also when it raises part-way. */
  lemma {:induction false} UpdateLeavesSkippedKeys(attrs: seq<Attr>, d: map<string, Value>, coerce: Convert,
                                handler: Option<Convert>, exclude: set<string>,
                                vals: map<string, Value>, k: string)
    requires k in exclude || k in SystemKeys || k !in Names(attrs) || k !in d || d[k] == Null
    ensures var r := UpdateAll(attrs, d, coerce, handler, exclude, vals).vals;
            (k in r <==> k in vals) && (k in vals ==> r[k] == vals[k])
  {
    UpdateKeepsKey(attrs, d, coerce, handler, exclude, vals, k);
  }

  /** A supplied `''` is written verbatim, whatever the attribute's kind or
      relation flag, and whatever the coercion or the handler would make of it. */
  lemma UpdateWritesEmptyString(attrs: seq<Attr>, d: map<string, Value>, coerce: Convert,
                                handler: Option<Convert>, exclude: set<string>,
                                vals: map<string, Value>, i: int)
    requires DistinctNames(attrs) && 0 <= i < |attrs|
    requires !Skipped(attrs[i], exclude)
    requires attrs[i].name in d && d[attrs[i].name] == Str("")
    requires UpdateAll(attrs, d, coerce, handler, exclude, vals).failure == None
    ensures var r := UpdateAll(attrs, d, coerce, handler, exclude, vals).vals;
            attrs[i].name in r && r[attrs[i].name] == Str("")
  {
    UpdateAt(attrs, d, coerce, handler, exclude, vals, i);
  }

  /** A supplied relation value other than `''` is resolved by the handler
      when one is given, and leaves the attribute alone when none is. */
  lemma UpdateResolvesRelation(attrs: seq<Attr>, d: map<string, Value>, coerce: Convert,
                               handler: Option<Convert>, exclude: set<string>,
                               vals: map<string, Value>, i: int)
    requires DistinctNames(attrs) && 0 <= i < |attrs|
    requires !Skipped(attrs[i], exclude) && attrs[i].isRelation
    requires attrs[i].name in d && d[attrs[i].name] != Null && d[attrs[i].name] != Str("")
    requires UpdateAll(attrs, d, coerce, handler, exclude, vals).failure == None
    ensures var r := UpdateAll(attrs, d, coerce, handler, exclude, vals).vals;
            var k := attrs[i].name;
            && (handler.Some? ==> k in r && handler.value(attrs[i].kind, d[k]) == Success(r[k]))
            && (handler.None? ==> (k in r <==> k in vals) && (k in vals ==> r[k] == vals[k]))
  {
    UpdateAt(attrs, d, coerce, handler, exclude, vals, i);
  }

  /** A supplied non-relation value other than `''` is stored as its coercion. */
  lemma UpdateCoercesField(attrs: seq<Attr>, d: map<string, Value>, coerce: Convert,
                           handler: Option<Convert>, exclude: set<string>,
                           vals: map<string, Value>, i: int)
    requires DistinctNames(attrs) && 0 <= i < |attrs|
    requires !Skipped(attrs[i], exclude) && !attrs[i].isRelation
    requires attrs[i].name in d && d[attrs[i].name] != Null && d[attrs[i].name] != Str("")
    requires UpdateAll(attrs, d, coerce, handler, exclude, vals).failure == None
    ensures var r := UpdateAll(attrs, d, coerce, handler, exclude, vals).vals;
            var k := attrs[i].name;
            k in r && coerce(attrs[i].kind, d[k]) == Success(r[k])
  {
    UpdateAt(attrs, d, coerce, handler, exclude, vals, i);
  }

  /** The conversion an attribute's value goes through in `update`, if any,
      raised `e`. */
  predicate UpdateRaisesAt(a: Attr, d: map<string, Value>, coerce: Convert,
                           handler: Option<Convert>, exclude: set<string>, e: Error)
  {
    && !Skipped(a, exclude)
    && a.name in d && d[a.name] != Null && d[a.name] != Str("")
    && (if a.isRelation then handler.Some? && handler.value(a.kind, d[a.name]) == Failure(e)
        else coerce(a.kind, d[a.name]) == Failure(e))
  }

  /** `update` raises exactly when the coercion or the handler raises for
      some attribute it converts, and then raises the first such error. */
  lemma {:induction false} UpdateRaisesOnlyInConversions(attrs: seq<Attr>, d: map<string, Value>, coerce: Convert,
                                                         handler: Option<Convert>, exclude: set<string>,
                                                         vals: map<string, Value>)
    ensures var f := UpdateAll(attrs, d, coerce, handler, exclude, vals).failure;
            && (f.Some? ==> exists i :: 0 <= i < |attrs| && UpdateRaisesAt(attrs[i], d, coerce, handler, exclude, f.value)
                                       && forall j, e :: 0 <= j < i ==> !UpdateRaisesAt(attrs[j], d, coerce, handler, exclude, e))
            && (f.None? <==> forall i, e :: 0 <= i < |attrs| ==> !UpdateRaisesAt(attrs[i], d, coerce, handler, exclude, e))
    decreases |attrs|
  {
    if attrs != [] {
      var rest := attrs[1..];
      assert forall j :: 0 <= j < |rest| ==> rest[j] == attrs[j + 1];
      match UpdateStep(attrs[0], d, coerce, handler, exclude)
      case Skip =>
        UpdateRaisesOnlyInConversions(rest, d, coerce, handler, exclude, vals);
        assert forall e :: !UpdateRaisesAt(attrs[0], d, coerce, handler, exclude, e);
      case Assign(v) =>
        UpdateRaisesOnlyInConversions(rest, d, coerce, handler, exclude, vals[attrs[0].name := v]);
        assert forall e :: !UpdateRaisesAt(attrs[0], d, coerce, handler, exclude, e);
      case Raise(e) =>
        assert UpdateRaisesAt(attrs[0], d, coerce, handler, exclude, e);
    }
  }

  // ---------------------------------------------------------------------
  // from_dict
  // ---------------------------------------------------------------------

  /** The arguments `from_dict` gathers hold only declared keys outside
      `exclude` and the system keys, besides those it started from. */
  lemma {:induction false} ArgsFromKeys(attrs: seq<Attr>, d: map<string, Value>, coerce: Convert,
                                        handler: Option<Convert>, exclude: set<string>,
                                        kwargs: map<string, Value>)
    ensures var r := ArgsFrom(attrs, d, coerce, handler, exclude, kwargs);
            r.Success? ==> r.value.Keys <= kwargs.Keys + (Names(attrs) - exclude - SystemKeys)
    decreases |attrs|
  {
    if attrs != [] {
      match ArgStep(attrs[0], d, coerce, handler, exclude)
      case Skip =>
        ArgsFromKeys(attrs[1..], d, coerce, handler, exclude, kwargs);
      case Assign(v) =>
        ArgsFromKeys(attrs[1..], d, coerce, handler, exclude, kwargs[attrs[0].name := v]);
      case Raise(e) =>
    }
  }

  /** A key that no attribute's step adds keeps what the arguments held. */
  lemma {:induction false} ArgsFromKeepsKey(attrs: seq<Attr>, d: map<string, Value>, coerce: Convert,
                                            handler: Option<Convert>, exclude: set<string>,
                                            kwargs: map<string, Value>, k: string)
    requires forall j :: 0 <= j < |attrs| && attrs[j].name == k ==>
               !ArgStep(attrs[j], d, coerce, handler, exclude).Assign?
    ensures var r := ArgsFrom(attrs, d, coerce, handler, exclude, kwargs);
            r.Success? ==> (k in r.value <==> k in kwargs) && (k in kwargs ==> r.value[k] == kwargs[k])
    decreases |attrs|
  {
    if attrs != [] {
      assert forall j :: 0 <= j < |attrs| - 1 ==> attrs[1..][j] == attrs[j + 1];
      match ArgStep(attrs[0], d, coerce, handler, exclude)
      case Skip =>
        ArgsFromKeepsKey(attrs[1..], d, coerce, handler, exclude, kwargs, k);
      case Assign(v) =>
        ArgsFromKeepsKey(attrs[1..], d, coerce, handler, exclude, kwargs[attrs[0].name := v], k);
      case Raise(e) =>
    }
  }

  /** In arguments `from_dict` built without raising, each attribute's key
      holds what its own step says. */
  lemma {:induction false} ArgsFromAt(attrs: seq<Attr>, d: map<string, Value>, coerce: Convert,
                                      handler: Option<Convert>, exclude: set<string>,
                                      kwargs: map<string, Value>, i: int)
    requires DistinctNames(attrs) && 0 <= i < |attrs|
    requires ArgsFrom(attrs, d, coerce, handler, exclude, kwargs).Success?
    ensures var k := attrs[i].name;
            var r := ArgsFrom(attrs, d, coerce, handler, exclude, kwargs).value;
            match ArgStep(attrs[i], d, coerce, handler, exclude)
            case Skip => (k in r <==> k in kwargs) && (k in kwargs ==> r[k] == kwargs[k])
            case Assign(v) => k in r && r[k] == v
            case Raise(_) => false
    decreases |attrs|
  {
    var rest := attrs[1..];
    assert forall j :: 0 <= j < |rest| ==> rest[j] == attrs[j + 1];
    assert DistinctNames(rest);
    var kwargs' := match ArgStep(attrs[0], d, coerce, handler, exclude)
                   case Assign(v) => kwargs[attrs[0].name := v]
                   case _ => kwargs;
    if i == 0 {
      ArgsFromKeepsKey(rest, d, coerce, handler, exclude, kwargs', attrs[0].name);
    } else {
      ArgsFromAt(rest, d, coerce, handler, exclude, kwargs', i - 1);
      if ArgStep(attrs[0], d, coerce, handler, exclude).Assign? {
        assert attrs[0].name != attrs[i].name;
      }
    }
  }

  /** `from_dict` never passes `created`, `updated`, `id`, an excluded key
      or an undeclared key to the constructor. */
  lemma FromDictOmitsSkippedKeys(attrs: seq<Attr>, d: map<string, Value>, coerce: Convert,
                                 handler: Option<Convert>, exclude: set<string>, k: string)
    requires k in exclude || k in SystemKeys || k !in Names(attrs)
    ensures var r := ConstructorArgs(attrs, d, coerce, handler, exclude);
            r.Success? ==> k !in r.value
  {
    ArgsFromKeys(attrs, d, coerce, handler, exclude, map[]);
  }

  /** An attribute `d` does not supply (or maps to `None`) defaults to
      `None` when nullable and `''` otherwise, unless it is Required, in
      which case it is left out of the arguments. */
  lemma FromDictDefaultsAbsent(attrs: seq<Attr>, d: map<string, Value>, coerce: Convert,
                               handler: Option<Convert>, exclude: set<string>, i: int)
    requires DistinctNames(attrs) && 0 <= i < |attrs|
    requires !Skipped(attrs[i], exclude)
    requires attrs[i].name !in d || d[attrs[i].name] == Null
    requires ConstructorArgs(attrs, d, coerce, handler, exclude).Success?
    ensures var r := ConstructorArgs(attrs, d, coerce, handler, exclude).value;
            var a := attrs[i];
            && (!a.required ==> a.name in r && r[a.name] == (if a.nullable then Null else Str("")))
            && (a.required ==> a.name !in r)
  {
    ArgsFromAt(attrs, d, coerce, handler, exclude, map[], i);
  }

  /** A supplied relation value is resolved by the handler when one is
      given, and silently dropped from the arguments when none is. */
  lemma FromDictResolvesRelation(attrs: seq<Attr>, d: map<string, Value>, coerce: Convert,
                                 handler: Option<Convert>, exclude: set<string>, i: int)
    requires DistinctNames(attrs) && 0 <= i < |attrs|
    requires !Skipped(attrs[i], exclude) && attrs[i].isRelation
    requires attrs[i].name in d && d[attrs[i].name] != Null
    requires ConstructorArgs(attrs, d, coerce, handler, exclude).Success?
    ensures var r := ConstructorArgs(attrs, d, coerce, handler, exclude).value;
            var k := attrs[i].name;
            && (handler.Some? ==> k in r && handler.value(attrs[i].kind, d[k]) == Success(r[k]))
            && (handler.None? ==> k !in r)
  {
    ArgsFromAt(attrs, d, coerce, handler, exclude, map[], i);
  }

  /** A supplied non-relation value, `''` included, is passed as its coercion. */
  lemma FromDictCoercesField(attrs: seq<Attr>, d: map<string, Value>, coerce: Convert,
                             handler: Option<Convert>, exclude: set<string>, i: int)
    requires DistinctNames(attrs) && 0 <= i < |attrs|
    requires !Skipped(attrs[i], exclude) && !attrs[i].isRelation
    requires attrs[i].name in d && d[attrs[i].name] != Null
    requires ConstructorArgs(attrs, d, coerce, handler, exclude).Success?
    ensures var r := ConstructorArgs(attrs, d, coerce, handler, exclude).value;
            var k := attrs[i].name;
            k in r && coerce(attrs[i].kind, d[k]) == Success(r[k])
  {
    ArgsFromAt(attrs, d, coerce, handler, exclude, map[], i);
  }

  /** The conversion an attribute's value goes through in `from_dict`, if
      any, raised `e`. */
  predicate ArgRaisesAt(a: Attr, d: map<string, Value>, coerce: Convert,
                        handler: Option<Convert>, exclude: set<string>, e: Error)
  {
    && !Skipped(a, exclude)
    && a.name in d && d[a.name] != Null
    && (if a.isRelation then handler.Some? && handler.value(a.kind, d[a.name]) == Failure(e)
        else coerce(a.kind, d[a.name]) == Failure(e))
  }

  /** `from_dict` raises exactly when the coercion or the handler raises for
      some attribute it converts, and then raises the first such error. */
  lemma {:induction false} FromDictRaisesOnlyInConversions(attrs: seq<Attr>, d: map<string, Value>, coerce: Convert,
                                                           handler: Option<Convert>, exclude: set<string>,
                                                           kwargs: map<string, Value>)
    ensures var r := ArgsFrom(attrs, d, coerce, handler, exclude, kwargs);
            && (r.Failure? ==> exists i :: 0 <= i < |attrs| && ArgRaisesAt(attrs[i], d, coerce, handler, exclude, r.error)
                                          && forall j, e :: 0 <= j < i ==> !ArgRaisesAt(attrs[j], d, coerce, handler, exclude, e))
            && (r.Success? <==> forall i, e :: 0 <= i < |attrs| ==> !ArgRaisesAt(attrs[i], d, coerce, handler, exclude, e))
    decreases |attrs|
  {
    if attrs != [] {
      var rest := attrs[1..];
      assert forall j :: 0 <= j < |rest| ==> rest[j] == attrs[j + 1];
      match ArgStep(attrs[0], d, coerce, handler, exclude)
      case Skip =>
        FromDictRaisesOnlyInConversions(rest, d, coerce, handler, exclude, kwargs);
        assert forall e :: !ArgRaisesAt(attrs[0], d, coerce, handler, exclude, e);
      case Assign(v) =>
        FromDictRaisesOnlyInConversions(rest, d, coerce, handler, exclude, kwargs[attrs[0].name := v]);
        assert forall e :: !ArgRaisesAt(attrs[0], d, coerce, handler, exclude, e);
      case Raise(e) =>
        assert ArgRaisesAt(attrs[0], d, coerce, handler, exclude, e);
    }
  }

  /** On a supplied `''` for a non-relation attribute the two paths differ:
      `update` stores `''`, `from_dict` stores the coercion of `''`. They
      agree exactly when the coercion maps `''` to itself. */
  lemma UpdateAndFromDictOnEmptyString(attrs: seq<Attr>, d: map<string, Value>, coerce: Convert,
                                       handler: Option<Convert>, exclude: set<string>,
                                       vals: map<string, Value>, i: int)
    requires DistinctNames(attrs) && 0 <= i < |attrs|
    requires !Skipped(attrs[i], exclude) && !attrs[i].isRelation
    requires attrs[i].name in d && d[attrs[i].name] == Str("")
    requires UpdateAll(attrs, d, coerce, handler, exclude, vals).failure == None
    requires ConstructorArgs(attrs, d, coerce, handler, exclude).Success?
    ensures var u := UpdateAll(attrs, d, coerce, handler, exclude, vals).vals;
            var r := ConstructorArgs(attrs, d, coerce, handler, exclude).value;
            var k := attrs[i].name;
            k in u && k in r && (u[k] == r[k] <==> coerce(attrs[i].kind, Str("")) == Success(Str("")))
  {
    UpdateWritesEmptyString(attrs, d, coerce, handler, exclude, vals, i);
    FromDictCoercesField(attrs, d, coerce, handler, exclude, i);
  }

  // ---------------------------------------------------------------------
  // to_dict and from_dict
  // ---------------------------------------------------------------------

  /** A stored value that `from_dict` reproduces: `None` only where an
      absent value defaults to `None`, anything else fixed by the coercion. */
  predicate Reproducible(a: Attr, v: Value, coerce: Convert)
  {
    if v == Null then !a.required && a.nullable else coerce(a.kind, v) == Success(v)
  }

  /** Feeding `from_dict` a dictionary that supplies, for every attribute
      it reads, a reproducible value yields exactly that dictionary's
      entries, minus the system and excluded keys. */
  lemma {:induction false} ArgsFromSnapshot(attrs: seq<Attr>, d: map<string, Value>, coerce: Convert,
                                            exclude: set<string>, kwargs: map<string, Value>)
    requires forall j :: 0 <= j < |attrs| && !Skipped(attrs[j], exclude) ==> !attrs[j].isRelation
    requires forall j :: 0 <= j < |attrs| && !Skipped(attrs[j], exclude) ==>
               attrs[j].name in d && Reproducible(attrs[j], d[attrs[j].name], coerce)
    ensures ArgsFrom(attrs, d, coerce, None, exclude, kwargs)
         == Success(kwargs + Project(d, Names(attrs) - exclude - SystemKeys))
    decreases |attrs|
  {
    if attrs == [] {
      assert Project(d, Names(attrs) - exclude - SystemKeys) == map[];
      assert kwargs + map[] == kwargs;
    } else {
      var a, rest := attrs[0], attrs[1..];
      assert forall j :: 0 <= j < |rest| ==> rest[j] == attrs[j + 1];
      var keys, restKeys := Names(attrs) - exclude - SystemKeys, Names(rest) - exclude - SystemKeys;
      if Skipped(a, exclude) {
        assert keys == restKeys;
        ArgsFromSnapshot(rest, d, coerce, exclude, kwargs);
      } else {
        assert keys == restKeys + {a.name};
        assert ArgStep(a, d, coerce, None, exclude) == Assign(d[a.name]);
        ArgsFromSnapshot(rest, d, coerce, exclude, kwargs[a.name := d[a.name]]);
        assert kwargs[a.name := d[a.name]] + Project(d, restKeys) == kwargs + Project(d, keys);
      }
    }
  }

  /** `to_dict()` with nothing excluded is the whole entity state. */
  lemma SnapshotOfAll(attrs: seq<Attr>, vals: map<string, Value>)
    requires vals.Keys == Names(attrs)
    ensures Snapshot(attrs, vals, {}) == vals
  {
  }

  /** The last rewriting step of the round trip, kept apart from the
      quantified hypotheses. */
  lemma RoundTripRewrite(attrs: seq<Attr>, vals: map<string, Value>, coerce: Convert, exclude: set<string>)
    requires Snapshot(attrs, vals, {}) == vals
    requires ArgsFrom(attrs, vals, coerce, None, exclude, map[])
          == Success(map[] + Project(vals, Names(attrs) - exclude - SystemKeys))
    ensures ConstructorArgs(attrs, Snapshot(attrs, vals, {}), coerce, None, exclude)
         == Success(Snapshot(attrs, vals, exclude + SystemKeys))
  {
    var keys := Names(attrs) - exclude - SystemKeys;
    assert keys == Names(attrs) - (exclude + SystemKeys);
    assert map[] + Project(vals, keys) == Project(vals, keys);
  }

  /** Round trip: for an entity whose attributes read by `from_dict` (those
      outside `x` and the system keys) are not relations and hold values the
      coercions reproduce, `from_dict(e.to_dict(), exclude=x)`
      passes the constructor exactly `e.to_dict()` minus `x` and the system
      keys. */
  lemma FromDictOfToDict(attrs: seq<Attr>, vals: map<string, Value>, coerce: Convert, exclude: set<string>)
    requires vals.Keys == Names(attrs)
    requires forall j :: 0 <= j < |attrs| && !Skipped(attrs[j], exclude) ==> !attrs[j].isRelation
    requires forall j :: 0 <= j < |attrs| && !Skipped(attrs[j], exclude) ==>
               Reproducible(attrs[j], vals[attrs[j].name], coerce)
    ensures ConstructorArgs(attrs, Snapshot(attrs, vals, {}), coerce, None, exclude)
         == Success(Snapshot(attrs, vals, exclude + SystemKeys))
  {
    SnapshotOfAll(attrs, vals);
    ArgsFromSnapshot(attrs, vals, coerce, exclude, map[]);
    RoundTripRewrite(attrs, vals, coerce, exclude);
  }
}
