/** The generic marshalling mixin shared by the catalog entities: `update`,
    `from_dict` and `to_dict`, each driven by the entity's attribute table.
    The conversions (`attr.py_type(val)` and the optional relation handler)
    are parameters, so nothing here depends on what they compute. */
module Mixin {
  import opened Values
  import opened Attributes

  /** What one pass of a loop does with one attribute: nothing, write a
      value under the attribute's name, or raise. */
  datatype Step = Skip | Assign(v: Value) | Raise(e: Error)

  /** Run a conversion and turn its outcome into a step. */
  function Call(f: Convert, kind: Kind, val: Value): Step
  {
    match f(kind, val)
    case Success(v) => Assign(v)
    case Failure(e) => Raise(e)
  }

  /** True when the marshalling loops pass over this attribute without
      looking at the input. */
  predicate Skipped(a: Attr, exclude: set<string>)
  {
    a.name in exclude || a.name in SystemKeys
  }

  // ---------------------------------------------------------------------
  // update
  // ---------------------------------------------------------------------

  /** The body of `update`'s loop for one attribute. */
  function UpdateStep(a: Attr, d: map<string, Value>, coerce: Convert,
                      handler: Option<Convert>, exclude: set<string>): Step
  {
    if Skipped(a, exclude) then Skip
    else
      var val := Lookup(d, a.name);
      if val == Null then Skip
      else if val == Str("") then Assign(Str(""))
      else if a.isRelation then
        (if handler.Some? then Call(handler.value, a.kind, val) else Skip)
      else Call(coerce, a.kind, val)
  }

  /** The state `update` leaves behind, and the exception it raised, if any. */
  datatype Updated = Updated(vals: map<string, Value>, failure: Option<Error>)

  /** `update` run over the attributes `attrs` in order, starting from the
      entity state `vals`. An exception stops the loop; the assignments
      made before it stay in place. */
  function UpdateAll(attrs: seq<Attr>, d: map<string, Value>, coerce: Convert,
                     handler: Option<Convert>, exclude: set<string>,
                     vals: map<string, Value>): Updated
    decreases |attrs|
  {
    if attrs == [] then Updated(vals, None)
    else
      match UpdateStep(attrs[0], d, coerce, handler, exclude)
      case Skip => UpdateAll(attrs[1..], d, coerce, handler, exclude, vals)
      case Assign(v) => UpdateAll(attrs[1..], d, coerce, handler, exclude, vals[attrs[0].name := v])
      case Raise(e) => Updated(vals, Some(e))
  }

  // ---------------------------------------------------------------------
  // from_dict
  // ---------------------------------------------------------------------

  /** The body of `from_dict`'s loop for one attribute: what it puts into
      the constructor arguments. */
  function ArgStep(a: Attr, d: map<string, Value>, coerce: Convert,
                   handler: Option<Convert>, exclude: set<string>): Step
  {
    if Skipped(a, exclude) then Skip
    else
      var val := Lookup(d, a.name);
      if val != Null then
        if a.isRelation then
          (if handler.Some? then Call(handler.value, a.kind, val) else Skip)
        else Call(coerce, a.kind, val)
      else if !a.required then Assign(if a.nullable then Null else Str(""))
      else Skip
  }

  /** `from_dict`'s loop over `attrs`, adding to the arguments `kwargs`
      gathered so far. */
  function ArgsFrom(attrs: seq<Attr>, d: map<string, Value>, coerce: Convert,
                    handler: Option<Convert>, exclude: set<string>,
                    kwargs: map<string, Value>): Result<map<string, Value>, Error>
    decreases |attrs|
  {
    if attrs == [] then Success(kwargs)
    else
      match ArgStep(attrs[0], d, coerce, handler, exclude)
      case Skip => ArgsFrom(attrs[1..], d, coerce, handler, exclude, kwargs)
      case Assign(v) => ArgsFrom(attrs[1..], d, coerce, handler, exclude, kwargs[attrs[0].name := v])
      case Raise(e) => Failure(e)
  }

  /** The constructor arguments `from_dict` builds from `d`. */
  function ConstructorArgs(attrs: seq<Attr>, d: map<string, Value>, coerce: Convert,
                           handler: Option<Convert>, exclude: set<string>): Result<map<string, Value>, Error>
  {
    ArgsFrom(attrs, d, coerce, handler, exclude, map[])
  }

  /** `from_dict`: the loop that gathers the constructor arguments. The
      constructor call `cls(**kwargs)` belongs to the ORM and is not modelled,
      so the arguments are the result. */
  method FromDict(attrs: seq<Attr>, d: map<string, Value>, coerce: Convert,
                  handler: Option<Convert>, exclude: set<string>)
    returns (r: Result<map<string, Value>, Error>)
    ensures r == ConstructorArgs(attrs, d, coerce, handler, exclude)
  {
    var kwargs: map<string, Value> := map[];
    var i := 0;
    while i < |attrs|
      invariant 0 <= i <= |attrs|
      invariant ArgsFrom(attrs[i..], d, coerce, handler, exclude, kwargs)
             == ConstructorArgs(attrs, d, coerce, handler, exclude)
    {
      assert attrs[i..][1..] == attrs[i + 1..];
      var attr := attrs[i];
      var key := attr.name;
      if key in exclude || key in SystemKeys {
        i := i + 1;
        continue;
      }
      var val := Lookup(d, key);
      if val != Null {
        if attr.isRelation {
          if handler.Some? {
            var h := handler.value(attr.kind, val);
            if h.Failure? {
              return Failure(h.error);
            }
            kwargs := kwargs[key := h.value];
          }
        } else {
          var c := coerce(attr.kind, val);
          if c.Failure? {
            return Failure(c.error);
          }
          kwargs := kwargs[key := c.value];
        }
      } else if !attr.required {
        kwargs := kwargs[key := if attr.nullable then Null else Str("")];
      }
      i := i + 1;
    }
    return Success(kwargs);
  }

  // ---------------------------------------------------------------------
  // to_dict
  // ---------------------------------------------------------------------

  /** `to_dict(exclude)` of an entity whose attributes are `attrs` and whose
      state is `vals`. */
  function Snapshot(attrs: seq<Attr>, vals: map<string, Value>, exclude: set<string>): map<string, Value>
  {
    Project(vals, Names(attrs) - exclude)
  }

  // ---------------------------------------------------------------------
  // The entity object
  // ---------------------------------------------------------------------

  /** An entity instance that mixes in the marshalling helpers: its
      attribute table (fixed by its class) and its current attribute
      values. */
  class Entity {
    const attrs: seq<Attr>
    var vals: map<string, Value>

    /** Each attribute is declared once and holds a value; nothing else is held. */
    predicate Valid()
      reads this
    {
      DistinctNames(attrs) && vals.Keys == Names(attrs)
    }

    /** An instance with the given attribute values. */
    constructor (attrs: seq<Attr>, vals: map<string, Value>)
      requires DistinctNames(attrs) && vals.Keys == Names(attrs)
      ensures Valid()
      ensures this.attrs == attrs && this.vals == vals
    {
      this.attrs := attrs;
      this.vals := vals;
    }

    /** `update(d, relation_handler, exclude)`: assigns the attributes `d`
        supplies, in declaration order, and returns the entity itself. A
        raising conversion aborts the loop after the assignments already
        made. */
    method Update(d: map<string, Value>, coerce: Convert, handler: Option<Convert>, exclude: set<string>)
      returns (r: Result<Entity, Error>)
      requires Valid()
      modifies this
      ensures Valid()
      ensures vals == UpdateAll(attrs, d, coerce, handler, exclude, old(vals)).vals
      ensures r == match UpdateAll(attrs, d, coerce, handler, exclude, old(vals)).failure
                   case None => Success(this)
                   case Some(e) => Failure(e)
    {
      var i := 0;
      while i < |attrs|
        invariant 0 <= i <= |attrs|
        invariant vals.Keys == Names(attrs)
        invariant UpdateAll(attrs[i..], d, coerce, handler, exclude, vals)
               == UpdateAll(attrs, d, coerce, handler, exclude, old(vals))
      {
        assert attrs[i..][1..] == attrs[i + 1..];
        var attr := attrs[i];
        var key := attr.name;
        if key in exclude || key in SystemKeys {
          i := i + 1;
          continue;
        }
        var val := Lookup(d, key);
        if val != Null {
          if val == Str("") {
            vals := vals[key := Str("")];
          } else if attr.isRelation {
            if handler.Some? {
              var h := handler.value(attr.kind, val);
              if h.Failure? {
                return Failure(h.error);
              }
              vals := vals[key := h.value];
            }
          } else {
            var c := coerce(attr.kind, val);
            if c.Failure? {
              return Failure(c.error);
            }
            vals := vals[key := c.value];
          }
        }
        i := i + 1;
      }
      return Success(this);
    }

    /** `to_dict(exclude)`: every declared attribute outside `exclude`,
        mapped to the value it currently holds. */
    function ToDict(exclude: set<string>): (r: map<string, Value>)
      reads this
      requires Valid()
      ensures r.Keys == Names(attrs) - exclude
      ensures forall k :: k in r ==> r[k] == vals[k]
    {
      Snapshot(attrs, vals, exclude)
    }
  }
}
