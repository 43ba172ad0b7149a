/**
 * The registry and its backing file. Every `FileStorage()` in the program
 * shares one class-level map, so the model has one `FileStorage` object that
 * everyone holds a reference to. Registry keys are "<ClassName>.<id>"; values
 * are `to_dict()` records, not live instances.
 */
module Storage {
  import opened Wrappers
  import opened Text
  import Kinds
  import Models

  type Registry = map<string, Models.Record>

  /** The registry key `f'{class_name}.{id}'`. */
  function Key(className: string, id: string): string {
    className + "." + id
  }

  /** `key.split('.')[0]`: the class part of a key. */
  function ClassSegment(key: string): string {
    Split(key, '.')[0]
  }

  /** The class part of a key is recovered exactly, whatever the id holds. */
  lemma KeyClassSegment(className: string, id: string)
    requires '.' !in className
    ensures ClassSegment(Key(className, id)) == className
  {
    SplitAtFirst(className, '.', id);
    assert Key(className, id) == className + ['.'] + id;
  }

  /**
   * Every entry sits under the key its own record names: the class in
   * `__class__` is one of the table's and the key is "<__class__>.<id>".
   */
  ghost predicate WellKeyed(m: Registry) {
    forall k :: k in m ==>
      && "__class__" in m[k] && "id" in m[k]
      && Kinds.IsClass(m[k]["__class__"])
      && k == Key(m[k]["__class__"], m[k]["id"])
  }

  /** What `new` adds keeps every entry under its own key. */
  lemma InsertKeepsWellKeyed(m: Registry, obj: Models.BaseModel)
    requires WellKeyed(m) && obj.Valid()
    ensures WellKeyed(m[Key(Kinds.Name(obj.kind), obj.id) := obj.ToDict()])
  {
    Kinds.LookupName(obj.kind);
  }

  class FileStorage {
    /** `FileStorage.__objects`. */
    var objects: Registry
    /** The contents of `file.json`: `None` while the file does not exist. */
    var file: Option<Registry>

    /** The state at start-up: an empty registry and whatever file is on disk. */
    constructor (onDisk: Option<Registry>)
      ensures objects == map[] && file == onDisk
    {
      objects := map[];
      file := onDisk;
    }

    /** `all()`: the current registry map. Sharing of the dict is not modelled; `DoDestroy` writes the smaller map back. */
    function All(): (m: Registry)
      reads this
      ensures m == objects
    {
      objects
    }

    /** `new(obj)`: stores `obj.to_dict()` under "<ClassName>.<id>", replacing any entry there. */
    method New(obj: Models.BaseModel)
      requires obj.Valid()
      modifies this`objects
      ensures objects == old(objects)[Key(Kinds.Name(obj.kind), obj.id) := obj.ToDict()]
      ensures Key(Kinds.Name(obj.kind), obj.id) in All()
      ensures All()[Key(Kinds.Name(obj.kind), obj.id)]["id"] == obj.id
      ensures forall k :: k in old(objects) && k != Key(Kinds.Name(obj.kind), obj.id) ==>
                k in objects && objects[k] == old(objects)[k]
      ensures WellKeyed(old(objects)) ==> WellKeyed(objects)
      ensures file == old(file)
    {
      var key := Key(Kinds.Name(obj.kind), obj.id);
      if WellKeyed(objects) {
        InsertKeepsWellKeyed(objects, obj);
      }
      objects := objects[key := obj.ToDict()];
    }

    /** `save()`: the whole file is overwritten with the registry. */
    method Save()
      modifies this`file
      ensures file == Some(objects)
      ensures objects == old(objects)
    {
      file := Some(objects);
    }

    /** `reload()`: with no file nothing happens; otherwise the file replaces the registry wholesale. */
    method Reload()
      modifies this`objects
      ensures old(file).None? ==> objects == old(objects)
      ensures old(file).Some? ==> objects == old(file).value
      ensures file == old(file)
    {
      if file.Some? {
        objects := file.value;
      }
    }
  }

  /** Save, empty the registry, reload: the registry comes back entry for entry. */
  method SaveClearReload(store: FileStorage)
    modifies store
    ensures store.objects == old(store.objects)
    ensures store.file == Some(old(store.objects))
  {
    store.Save();
    store.objects := map[];
    store.Reload();
  }

  /** An entry that exists only in memory is discarded by a reload from an existing file. */
  method ReloadDiscardsUnsaved(store: FileStorage, obj: Models.BaseModel)
    requires obj.Valid() && store.file.Some?
    requires Key(Kinds.Name(obj.kind), obj.id) !in store.file.value
    modifies store
    ensures Key(Kinds.Name(obj.kind), obj.id) !in store.All()
    ensures store.All() == old(store.file).value
  {
    store.New(obj);
    store.Reload();
  }
}
