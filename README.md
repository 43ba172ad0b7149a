# AirBnB clone storage engine and console, modelled in Dafny

This project models the object store of the AirBnB clone and the shell commands that run against it:

- **Registry** (`FileStorage`): one map shared by the whole program. It maps composite keys
  `"<ClassName>.<id>"` to the `to_dict()` records of instances, not to the live instances.
  A backing file (`file.json`) holds JSON text. `save` overwrites that file with the whole map.
  `reload` replaces the map with the file's contents when the file exists, and otherwise does nothing.
- **Entities** (`BaseModel`, `User` and the other classes): an `id`, `created_at` and `updated_at`,
  plus the instance attributes the constructor set. `to_dict()` copies the attributes, renders both
  timestamps with `isoformat()` and adds `__class__`. `save()` only advances `updated_at`.
  `User` sets four empty string attributes before running the base constructor. Place, Review, City
  and State declare only class-level defaults; the model keeps these in the kind table (`Kinds`).
- **Console** (`HBNBCommand`): `create`, `show`, `destroy`, `all`, `update` and the dotted
  `<Class>.<method>(<args>)` form handled by `default`. Each handler returns an `Outcome` (the
  message it would print, the record shown, the entries listed, the count, or the exception it
  raises) instead of printing. Handlers that change the registry change the shared `FileStorage` object.

Modules: `Wrappers` (Option, Result), `Text` (Python's `str.split()`, `str.split(sep)`,
`str.rstrip`, `str.startswith`), `DateTimes` (naive `datetime` and `isoformat()`), `Kinds` (the class
table), `Models` (`models/base_model.py`, `models/user.py`), `Storage`
(`models/engine/file_storage.py`) and `Console` (`console.py`).

Where the code and its tests or design description disagree, the model follows the code:

- Registry values are `to_dict()` dicts (`models/engine/file_storage.py:34`).
  `tests/test_models/test_engine/test_file_storage.py:31` expects live objects.
- Neither the constructor nor `BaseModel.save()` touches storage. So `create` prints a new id but adds
  nothing to the registry. `tests/test_console.py:93` expects the new key to be present.
- `reload` loads the raw records back. It builds no typed objects and does no dispatch on `__class__`.
- `BaseModel.__init__` takes no keyword arguments. The reconstruction tests describe behaviour the code lacks.

The backing file is a field `file: Option<Registry>` of `FileStorage` (`None` while no file exists).
`json.dump` and `json.load` are taken to be exact inverses on records.

## Model

| member | source | states |
|---|---|---|
| `Text.Words` | console.py:85 | `arg.split()`: every token is non-empty and contains no Python whitespace. |
| `Text.WordsSkipsSpace` | console.py:85 | Any run of whitespace before the text, leading or repeated, is ignored by `split()`, for every string. |
| `Text.WordsSplitsOffWord` | console.py:85 | A token followed by any non-empty run of whitespace is split off whole, for every token and every run. With `WordsSkipsSpace`, this fixes `split()` on every input. |
| `Text.WordsOfJoin` | console.py:240-242 | Splitting `" ".join(ws)` on whitespace gives back exactly `ws` whenever every `ws[i]` is a proper token. |
| `Text.Split` | console.py:223 | `s.split(sep)` always yields at least one piece, no piece contains `sep`, and the first piece is a prefix of `s`. |
| `Text.JoinSplit` | console.py:223 | Splitting loses nothing: `sep.join(s.split(sep)) == s`. |
| `Text.SplitAtFirst` | console.py:166 | The first piece of `s.split(sep)` ends at the first separator in `s`. |
| `Text.RStrip` | console.py:231 | `s.rstrip(')')` is a prefix of `s`, does not end in `)`, and every character it drops is `)`. |
| `DateTimes.IsoFormat` | models/base_model.py:42-43 | `isoformat()` is 19 characters long when the microsecond is zero and 26 otherwise. |
| `DateTimes.IsoRoundTrip` | models/base_model.py:42-43 | The `isoformat()` text gives back every field of the datetime. |
| `DateTimes.IsoInjective` | models/base_model.py:42-43 | Distinct datetimes render as distinct `isoformat()` strings. |
| `Kinds.Lookup` | console.py:36-44 | Looking a name up in `HBNBCommand.classes` returns a class whose `__name__` is that name. |
| `Kinds.LookupName` | console.py:36-44 | Every class's `__name__` is found in the table under that class. |
| `Kinds.NameIsPlain` | console.py:36-44 | Class names are single whitespace-free tokens containing neither `.` nor `(`. |
| `Kinds.NamesPrefixFree` | console.py:36-44 | No class name in the table is a proper prefix of another. |
| `Models.BaseModel.Plain` | models/base_model.py:17-24 | A new instance has the given id and two clock readings, and no other attributes. `created_at <= updated_at` when the clock is monotone. Nothing is registered. |
| `Models.BaseModel.NewUser` | models/user.py:16-28 | A new User has `email`, `password`, `first_name` and `last_name` all `''`, plus the id and timestamps from the base constructor. |
| `Models.BaseModel.Init` | models/base_model.py:22-24 | The base constructor sets `id`, `created_at` and `updated_at` and leaves every other attribute as it was. |
| `Models.BaseModel.ToDict` | models/base_model.py:35-45 | The keys are exactly the instance attributes plus `__class__`. `__class__` is the class name and `id` is the id. Both timestamps are their `isoformat()`. Every other attribute is copied unchanged. |
| `Models.BaseModel.Str` | models/base_model.py:26-33 | `str(obj)` starts with `"[<ClassName>] (<id>) "`. |
| `Models.BaseModel.Save` | models/base_model.py:47-49 | `save()` sets `updated_at` to the current time and leaves `id`, `created_at` and every other attribute unchanged. Chronological order is kept when the clock does not go back. |
| `Models.NotAfterTransitive` | models/base_model.py:47-49 | Datetime order is transitive, which is what keeps `created_at <= updated_at` across saves. |
| `Models.ToDictLossless` | models/base_model.py:41-44 | Two instances with the same `to_dict()` agree on class, id, both timestamps and every other attribute. |
| `Models.StrShowsClassAndId` | models/base_model.py:33 | `str(obj)` contains `"[<ClassName>]"` and `"(<id>)"`. |
| `Models.FreshUserRecord` | models/user.py:24-27 | A fresh User's `to_dict()` has `__class__ == 'User'` and holds each of its four attributes with value `''`. |
| `Models.ClassAttributesNotRecorded` | models/base_model.py:41 | Class-level defaults (Place, Review, City, State) never appear in the `to_dict()` of a freshly built instance. |
| `Storage.KeyClassSegment` | models/engine/file_storage.py:33 | `key.split('.')[0]` recovers the class name from `"<ClassName>.<id>"`, even when the id holds a `.`. |
| `Storage.InsertKeepsWellKeyed` | models/engine/file_storage.py:33-34 | Inserting `obj.to_dict()` under its own key keeps every entry keyed by its own `__class__` and `id`. |
| `Storage.FileStorage.constructor` | models/engine/file_storage.py:13-17 | At start-up the shared map is empty, so `all() == {}`. |
| `Storage.FileStorage.New` | models/engine/file_storage.py:27-34 | `new(obj)` maps `ClassName.id` to `obj.to_dict()`, overwriting any entry there. Afterwards the key is in `all()` and its record's `id` is `obj.id`. Every other key is unchanged, and the file is untouched. |
| `Storage.FileStorage.Save` | models/engine/file_storage.py:36-39 | `save()` sets the file contents to exactly the current map and leaves the map unchanged. |
| `Storage.FileStorage.Reload` | models/engine/file_storage.py:41-45 | With no file, `reload()` leaves the map unchanged. With a file, the map becomes the file's contents wholesale. |
| `Storage.SaveClearReload` | tests/test_models/test_engine/test_file_storage.py:49-59 | `save()`, clearing the map, then `reload()` gives back the same keys with the same record under each. |
| `Storage.ReloadDiscardsUnsaved` | models/engine/file_storage.py:44-45 | An entry that exists only in memory is gone after a reload from an existing file. |
| `Console.Locate` | console.py:85-98 | `show`, `destroy` and `update` check in order: no arguments, unknown class, missing id. Otherwise the lookup key is `class_name + "." + id`. |
| `Console.Select` | console.py:165-167 | `all C` selects exactly the entries whose key, up to its first `.`, equals `C`, with their records unchanged. |
| `Console.DoCreate` | console.py:59-75 | An empty argument prints "class name missing" and an unknown name prints "class doesn't exist". A known class prints the new id. The registry is never touched. |
| `Console.DoShow` | console.py:77-108 | After the three checks, shows the record under `class.id` when present and prints "no instance found" otherwise. |
| `Console.DoDestroy` | console.py:110-140 | After the three checks, a present key is removed from the live map, every other entry is kept, and the map is saved. An absent key prints "no instance found" and changes neither map nor file. After a deletion the key is no longer in `all()`, and a well-keyed registry stays well keyed. |
| `Console.DoAll` | console.py:142-167 | With no argument, lists every entry. An unknown class prints "class doesn't exist". Otherwise lists exactly the entries of that class. |
| `Console.DoUpdate` | console.py:169-214 | The three checks run first, then the key lookup, then "attribute name missing" (2 arguments) and "value missing" (3 arguments). With 4 or more arguments it raises: the registry value is a dict. |
| `Console.ParseCall` | console.py:223-231 | A parsed call names a known class without `.` and a method part without `(`, and its argument never ends in `)`. The failure paths are stated by `NoDotRaises`, `UnknownClassRejected`, `NoParenRaises` and `TwoParensRaise`. |
| `Console.Dispatch` | console.py:233-246 | Runs `all` on the class, `count` on the class, or `show`/`destroy` on `"<class> <args>"`. Any other method prints nothing, and only a successful `destroy` changes the registry and file. |
| `Console.Default` | console.py:216-246 | A line that fails to parse prints or raises the parse error and changes nothing. Otherwise the parsed call is dispatched as above. |
| `Console.PrefixTestMatchesClassPart` | console.py:237 | For keys built from table classes, `key.startswith(C)` holds exactly when the key's class is `C`. |
| `Console.ClassPartIsRecordClass` | console.py:166 | In a well-keyed registry, the class part of every key is the `__class__` of its record. |
| `Console.SelectIsolatesKinds` | console.py:165-167 | In a well-keyed registry, `all C` lists exactly the records whose `__class__` is `C`: no other class leaks in. |
| `Console.Count` | console.py:236-238 | The number of registry keys that start with `C`: at most the registry's size, and zero exactly when no key starts with `C`. It is a prefix test, not the class-part test of `all C`; `CountAgreesWithAll`, `SelectWithinCount` and `CountDiffersFromAll` relate the two. |
| `Console.CountAgreesWithAll` | console.py:235-238 | In a well-keyed registry, `C.count()` equals the number of entries `all C` lists. |
| `Console.CountDiffersFromAll` | console.py:237 | In general `count` is a prefix test: a key `Users.1` is counted for `User` but not listed by `all User`. |
| `Console.SelectWithinCount` | console.py:165-167 | In every registry, each key `all C` lists is also counted by `C.count()`, so the count is at least the number listed (`count` is at console.py:235-238). |
| `Console.NoDotRaises` | console.py:223-224 | A line with no `.` makes `default` raise IndexError. |
| `Console.UnknownClassRejected` | console.py:223-228 | When the part before the first `.` is not a class name, `default` prints "class doesn't exist", whatever follows. |
| `Console.NoParenRaises` | console.py:223-230 | For a known class, a method part with no `(` raises ValueError. |
| `Console.TwoParensRaise` | console.py:223-230 | For a known class, a method part with two `(` raises ValueError. |
| `Console.ParseDottedCall` | console.py:223-231 | `<C>.<name>(<arg>)` parses into class `C`, method `name` and argument `arg`. |
| `Console.DottedIdIsCut` | console.py:223-231 | An id containing `.` is cut at that `.` by `default`, so `C.show(a.b)` looks up `C.a`. |
| `Console.DottedShowIsShow` | console.py:239-242 | `C.show(id)` prints what `show C id` prints: the record under `C.id`, or "no instance found". |

## Left out

- The command loop (`cmd.Cmd`, `prompt`, `do_quit`, `do_EOF`, `emptyline`, help text): user interface with no contract beyond echo. So is the loop's stripping of each line and its routing of unknown commands to `default`.
- Printing: every handler returns its `Outcome`. The order in which `all` prints its entries is not kept: the model returns them as a map, and Python dict order is not modelled.
- Python's `repr` of a dict: `Str` takes that text as a parameter, and `show`/`all` return the records themselves.
- Real file and JSON I/O (`open`, `json.dump`, `json.load`, `os.path.exists`): the file is the `file` field. I/O failures and malformed files are not modelled.
- `uuid4()` and `datetime.now()`: ids and clock readings are parameters.
- `Models.BaseModel.Save`: the promise that the new `updated_at` differs from the old one holds only when the clock has advanced. The contract states `updatedAt == now`.
- `Models.BaseModel.Plain` and `Models.BaseModel.NewUser`: `created_at <= updated_at` is stated only for a monotone clock, because two `now()` readings are not otherwise ordered.
- `Console.DoUpdate`: after validation the model shows only that the handler raises, because the registry value is a dict. It does not say which exception (AttributeError or TypeError, depending on the attribute name). It is not stated that the exception ends the command loop.
- `Storage.FileStorage.All`: the registry is a map value, so `all()` returns the current map and cannot be shown to share it. Where Python deletes through the shared dict (console.py:133-137), `DoDestroy` writes the smaller map back to `objects`. Aliasing of the shared dict is not modelled.
- `FileStorage.__init__` does nothing. The start-up sequence in `models/__init__.py` (creating `storage` and calling `reload`) is not part of this model: the constructor takes the file on disk as a parameter.
- models/amenity.py is not part of this model. Amenity is in the class table with the base constructor, and the model assumes it has no class attributes. tests/test_models/test_amenity.py:13-14 and 19 expect a class-level `name` equal to `''`.
- Place's float attributes (`latitude`, `longitude`) and its shared list default `amenity_ids`: floats and list aliasing, neither of which reaches `to_dict`.
- Instance attributes other than the User fields and the three base attributes: nothing in the code sets any, because `update` always raises.
