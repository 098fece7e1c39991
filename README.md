# Catalog models: generic marshalling and lifecycle hooks

This project models the model layer of the catalog web application (`vagrant/catalog/models.py`). That layer has two parts:

- The `Mixin` helpers that every catalog entity shares. `update` assigns values from a dictionary to an existing entity. `from_dict` builds the constructor arguments of a new entity. `to_dict` takes a snapshot of an entity's attributes.
- The lifecycle hooks that the ORM runs before a row is inserted or updated. `Base` stamps the timestamps. `User` checks that the user can log in. `File` recomputes the content hash. The `Password` attribute hashes plaintext when it is written.

The ORM finds an entity's attributes by reflection (`_attrs_`, `_adict_`). Here each entity instead has an explicit attribute table (`Attributes.Attr`, `Schema.*Attrs`). Each entry gives the attribute's name, whether it is Required, whether it is nullable, whether it is a relation, and its kind. An entity instance is a `Mixin.Entity` object. It holds its table and a `map<string, Value>` of its current values. `update` reassigns that map in place.

Some operations are not defined in this file: the type coercion `attr.py_type(val)`, the caller's relation handler, the password hashing scheme (`identify`, `hash`), MD5, base64 and the clock. They are all parameters. The coercion and the handler have type `Values.Convert` and may raise, which is modelled as a `Failure`. So every property proved here holds for any coercion, handler, hash and digest.

Modules:

- `Values`: values, kinds, errors, and Python truthiness.
- `Attributes`: the attribute descriptor, the system keys `created`/`updated`/`id`, and `d.get(key, None)`.
- `Mixin`: the per-attribute steps of the `update` and `from_dict` loops. Also `UpdateAll` and `ArgsFrom`, which fold those steps over the table. Also the imperative `Entity.Update` and `FromDict`, which are proved equal to those folds, and `Entity.ToDict`.
- `MixinProperties`: what the three helpers promise.
- `Schema`: the attribute tables of Base, User, OAuth, File, Category and Item, with worked examples.
- `Password`, `Base`, `User`, `File`: the field validation and the hooks.

Three behaviours of the code are worth stating outright, since the model keeps them as written:

- `from_dict` silently drops a relation value when no handler is given (lines 42-44). It does not raise.
- Only `update` special-cases `''` (lines 24-25): it stores `''` without calling the coercion. `from_dict` sends `''` through the coercion like any other value (line 46). `MixinProperties.UpdateAndFromDictOnEmptyString` and `Schema.EmptyAuthorDisagreement` show when the two paths disagree.
- A Required attribute that is missing is left out of `from_dict`'s arguments without an error (line 47).

## Model

| member | source | states |
|---|---|---|
| `Mixin.Entity.Update` | vagrant/catalog/models.py:17-31 | The loop leaves the entity in exactly the state `UpdateAll` gives. It returns the entity itself, or the first exception raised. The set of attributes does not change. |
| `MixinProperties.UpdateAt` | vagrant/catalog/models.py:18-30 | After an `update` that raised nothing, each declared attribute holds the value its own step assigned, or keeps its old value when its step skipped it. |
| `MixinProperties.UpdateLeavesSkippedKeys` | vagrant/catalog/models.py:18-23 | `update` never changes `created`, `updated`, `id`, an excluded key, an undeclared key, or a key that `d` lacks or maps to `None`. This holds even when `update` raises part-way. |
| `MixinProperties.UpdateWritesEmptyString` | vagrant/catalog/models.py:24-25 | A supplied `''` is stored as `''`, whatever the attribute's kind or relation flag, and for every coercion and handler. |
| `MixinProperties.UpdateResolvesRelation` | vagrant/catalog/models.py:26-28 | A supplied relation value other than `''` becomes the handler's result when a handler is given. The attribute is unchanged when no handler is given. |
| `MixinProperties.UpdateCoercesField` | vagrant/catalog/models.py:29-30 | A supplied non-relation value other than `''` is stored as its coercion. |
| `MixinProperties.UpdateRaisesOnlyInConversions` | vagrant/catalog/models.py:26-31 | `update` raises exactly when the coercion or the handler raises for an attribute it converts. It then raises the error of the first such attribute in declaration order. |
| `Mixin.FromDict` | vagrant/catalog/models.py:34-49 | The loop builds exactly the arguments `ConstructorArgs` describes, or raises the same error. |
| `MixinProperties.ArgsFromKeepsKey` | vagrant/catalog/models.py:36-48 | A key that no attribute's step adds keeps the value it had in the arguments gathered so far. |
| `MixinProperties.ArgsFromAt` | vagrant/catalog/models.py:36-48 | In arguments built without raising, each declared attribute's key holds what its own step put there, or is absent when its step added nothing. |
| `MixinProperties.FromDictOmitsSkippedKeys` | vagrant/catalog/models.py:37-39 | The arguments never contain `created`, `updated`, `id`, an excluded key or an undeclared key. |
| `MixinProperties.FromDictDefaultsAbsent` | vagrant/catalog/models.py:47-48 | A non-Required attribute that is absent or `None` gets `None` when nullable and `''` otherwise. A Required one is left out of the arguments. |
| `MixinProperties.FromDictResolvesRelation` | vagrant/catalog/models.py:42-44 | A supplied relation value becomes the handler's result. With no handler it is silently left out of the arguments. |
| `MixinProperties.FromDictCoercesField` | vagrant/catalog/models.py:45-46 | A supplied non-relation value, `''` included, is passed as its coercion. |
| `MixinProperties.FromDictRaisesOnlyInConversions` | vagrant/catalog/models.py:40-46 | `from_dict` raises exactly when the coercion or the handler raises for an attribute it converts, and it raises the first such error. |
| `MixinProperties.UpdateAndFromDictOnEmptyString` | vagrant/catalog/models.py:24-25 | Take a supplied `''` for a non-relation attribute. `update` stores `''`, while `from_dict` stores the coercion of `''`. The two agree exactly when the coercion maps `''` to `''`. |
| `Mixin.Entity.ToDict` | vagrant/catalog/models.py:51-53 | The snapshot's keys are exactly the declared attribute names not in `exclude`. Each key maps to the value the entity currently holds. |
| `MixinProperties.SnapshotOfAll` | vagrant/catalog/models.py:51-53 | With nothing excluded, the snapshot is the entity's whole state. |
| `MixinProperties.FromDictOfToDict` | vagrant/catalog/models.py:34-53 | Round trip. Take an entity whose attributes that `from_dict` reads (those outside `x`, `created`, `updated` and `id`) are not relations and hold values the coercions reproduce. Skipped attributes may hold anything. Then `from_dict(e.to_dict(), exclude=x)` passes the constructor exactly `e.to_dict()` without `x`, `created`, `updated` and `id`. |
| `MixinProperties.ArgsFromSnapshot` | vagrant/catalog/models.py:36-48 | Given a dictionary that supplies a reproducible non-relation value for every attribute the loop reads, `from_dict`'s loop adds exactly the dictionary's entries for those attributes. Attributes the loop skips are unconstrained. |
| `Schema.TablesHaveDistinctNames` | vagrant/catalog/models.py:60-160 | Every entity table declares each attribute name once. |
| `Schema.ItemTitleUpdates` | vagrant/catalog/models.py:17-31 | On an Item, `update({'title': ''})` raises nothing and sets the title to `''`, whatever the coercion. `update({})` changes nothing. |
| `Schema.EmptyAuthorDisagreement` | vagrant/catalog/models.py:24-46 | Use an integer coercion that rejects `''`. Then `{'author': ''}` clears an Item's author through `update`, but makes `from_dict` raise. |
| `Password.Validate` | vagrant/catalog/models.py:77-81 | `''` and any value the scheme recognises as a hash are stored unchanged. Every other value is stored as its hash. |
| `Password.StoredIsEmptyOrHash` | vagrant/catalog/models.py:77-81 | If the scheme recognises its own hashes, the stored value is always `''` or a hash. |
| `Password.ValidateIdempotent` | vagrant/catalog/models.py:77-81 | If the scheme recognises its own hashes, saving the stored value again leaves it unchanged, so nothing is hashed twice. |
| `Password.ValidateKeepsEmptiness` | vagrant/catalog/models.py:77-81 | If the scheme never makes an empty hash, the stored value is empty exactly when the written value is. |
| `User.LoginCheck` | vagrant/catalog/models.py:101-107 | The check passes exactly when (the e-mail and the password are both non-empty strings) or the user has at least one OAuth link. Otherwise it raises the "Must provide email and password, or oauth." exception. |
| `User.BeforeInsert` | vagrant/catalog/models.py:101-103 | Insertion is refused exactly when the user has neither a non-empty e-mail with a non-empty password nor an OAuth link. |
| `User.BeforeUpdate` | vagrant/catalog/models.py:105-107 | An update is checked by the same predicate as an insert. |
| `User.SignupExamples` | vagrant/catalog/models.py:101-103 | E-mail `a@x.com`, password `secret` and no OAuth link is accepted. No e-mail, no password and no link is refused. |
| `User.HashedPasswordKeepsLogin` | vagrant/catalog/models.py:77-107 | If the scheme never makes an empty hash, hashing the password on write never changes whether the login check passes. |
| `File.BlobHash` | vagrant/catalog/models.py:133-137 | The hash is `None` exactly when the blob is empty. It is `encode(digest(blob))` when the blob is non-empty. Computing it raises exactly when the blob is not bytes (`len(None)`). |
| `File.Hashed` | vagrant/catalog/models.py:133-137 | The state after the hook: `hash` holds `BlobHash(blob)` and every other attribute keeps its value. The hook raises exactly when `blob` is not bytes, with `BlobHash`'s error. |
| `File.SameContentSameHash` | vagrant/catalog/models.py:133-137 | Two files with the same `blob` end with the same `hash` after the hook, whatever else differs. Either both succeed or both raise the same error. |
| `File.HashedIdempotent` | vagrant/catalog/models.py:133-143 | Running the hook again on the state it produced changes nothing. |
| `File.Hasher` | vagrant/catalog/models.py:133-137 | The entity ends in exactly the state `Hashed` describes and the hook passes. If that raises, nothing changes. |
| `File.BeforeInsert` | vagrant/catalog/models.py:139-140 | Runs the hash hook: the entity ends in the state `Hashed` describes, or is unchanged when it raises. |
| `File.BeforeUpdate` | vagrant/catalog/models.py:142-143 | Runs the hash hook: the entity ends in the state `Hashed` describes, or is unchanged when it raises. |
| `Base.BeforeInsert` | vagrant/catalog/models.py:64-67 | `created` and `updated` are both set to `now`. Nothing else changes. |
| `Base.BeforeUpdate` | vagrant/catalog/models.py:69-70 | Only `updated` is set to `now`. |
| `Base.InsertThenUpdate` | vagrant/catalog/models.py:64-70 | Insert at `t1`, then update at `t2`. The result has `created` = `t1`, `updated` = `t2`, and every other attribute unchanged. |
| `Base.StampsSurviveUpdate` | vagrant/catalog/models.py:20-21 | Any state carrying the stamps of an insert at `t1` and an update at `t2`, under any attribute table, keeps `created` = `t1` and `updated` = `t2` through the mixin's `update`, whatever it is given. |

## Left out

- The ORM itself is left out. This covers the `Database` object, entity registration, `Set`/`reverse` bookkeeping, `sql_default`, and unique and index enforcement at commit. These belong to the storage engine. The attribute tables in `Schema` record only what the mixin reads.
- The constructor call `cls(**kwargs)` at the end of `from_dict` is the ORM's constructor. `Mixin.FromDict` returns the arguments it would receive.
- The ORM runs each attribute's own validation on every assignment. For `User.password` that is `Password.Validate`. `Entity.Update` treats an assignment as a plain write, and `Password.Validate` is modelled on its own.
- `Password.Validate` starts from the result of the ORM's own string conversion (`super().validate`), which is not modelled.
- The PBKDF2, MD5 and base64 internals, and `Password.hash`/`Password.verify`, are left out. The latter two are one-line wrappers around the hashing library. The library functions are parameters.
- `to_json` and `User.to_json` are left out. They format `to_dict()` with `json.dumps`. `User.to_dict` has the same body as the mixin's `to_dict`, so `Entity.ToDict` models both.
- `datetime.now()` is left out. The time is the parameter `now`.
- Real Python type coercion is left out. `attr.py_type(val)` is an arbitrary conversion that may raise.
- Python's `val is ''` and `val is not None` are modelled as equality.
- `File.BlobHash` treats every non-bytes blob as raising. The ORM admits only bytes or `None` into `blob`, and `len(None)` raises.
- Nullable flags that a declaration does not give take the ORM's defaults, as assumed in `Schema`: false for Required attributes and Optional strings, true for other Optional attributes. A `Set` is not nullable unless declared so.
- `User.LoginCheck` requires the e-mail to be a string or `None`, the password a string, and `oauth` a set of links. That is how the ORM types these attributes.
