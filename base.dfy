/** The timestamp hooks of the `Base` entity. The clock is a parameter:
    `now` is the time `datetime.now()` would return. */
module Base {
  import opened Values
  import opened Attributes
  import opened Mixin
  import Schema
  import MixinProperties

  /** The state after `before_insert` at time `now`. */
  function StampedOnInsert(vals: map<string, Value>, now: int): map<string, Value>
  {
    vals["created" := DateTime(now)]["updated" := DateTime(now)]
  }

  /** The state after `before_update` at time `now`. */
  function StampedOnUpdate(vals: map<string, Value>, now: int): map<string, Value>
  {
    vals["updated" := DateTime(now)]
  }

  /** `before_insert`: stamps `created` and `updated` with the same time. */
  method BeforeInsert(e: Entity, now: int)
    requires e.Valid() && e.attrs == Schema.BaseAttrs
    modifies e
    ensures e.Valid()
    ensures e.vals == StampedOnInsert(old(e.vals), now)
  {
    assert "created" == e.attrs[1].name && "updated" == e.attrs[2].name;
    e.vals := e.vals["created" := DateTime(now)];
    e.vals := e.vals["updated" := DateTime(now)];
  }

  /** `before_update`: stamps `updated` only. */
  method BeforeUpdate(e: Entity, now: int)
    requires e.Valid() && e.attrs == Schema.BaseAttrs
    modifies e
    ensures e.Valid()
    ensures e.vals == StampedOnUpdate(old(e.vals), now)
  {
    assert "updated" == e.attrs[2].name;
    e.vals := e.vals["updated" := DateTime(now)];
  }

  /** Inserting at `t1` and later updating at `t2` leaves `created` at
      `t1`, `updated` at `t2`, and every other attribute as it was. */
  lemma InsertThenUpdate(vals: map<string, Value>, t1: int, t2: int)
    ensures var r := StampedOnUpdate(StampedOnInsert(vals, t1), t2);
            && r["created"] == DateTime(t1) && r["updated"] == DateTime(t2)
            && r.Keys == vals.Keys + {"created", "updated"}
            && forall k :: k in vals && k != "created" && k != "updated" ==> r[k] == vals[k]
  {
  }

  /** Any state carrying the stamps of an insert at `t1` and an update at
      `t2`, under any attribute table, keeps them through the mixin's
      `update`, whatever it is given. */
  lemma StampsSurviveUpdate(attrs: seq<Attr>, d: map<string, Value>, coerce: Convert,
                            handler: Option<Convert>, exclude: set<string>,
                            vals: map<string, Value>, t1: int, t2: int)
    ensures var r := UpdateAll(attrs, d, coerce, handler, exclude, StampedOnUpdate(StampedOnInsert(vals, t1), t2)).vals;
            && "created" in r && r["created"] == DateTime(t1)
            && "updated" in r && r["updated"] == DateTime(t2)
  {
    var stamped := StampedOnUpdate(StampedOnInsert(vals, t1), t2);
    MixinProperties.UpdateLeavesSkippedKeys(attrs, d, coerce, handler, exclude, stamped, "created");
    MixinProperties.UpdateLeavesSkippedKeys(attrs, d, coerce, handler, exclude, stamped, "updated");
  }
}
