/**
 * Model instances: `BaseModel` and its subclasses. Every instance holds an
 * `id`, a `created_at` and an `updated_at` attribute plus whatever other
 * instance attributes its constructor set; `to_dict` turns it into the
 * flat record the registry stores.
 */
module Models {
  import opened DateTimes
  import opened Text
  import Kinds

  /** What `to_dict()` returns and the registry stores: attribute name to text. */
  type Record = map<string, string>

  /** Attribute names that `to_dict` fills in itself. */
  const Reserved: set<string> := {"id", "created_at", "updated_at", "__class__"}

  /** The instance attributes `User.__init__` sets before calling the base constructor. */
  const UserFields: map<string, string> :=
    map["email" := "", "password" := "", "first_name" := "", "last_name" := ""]

  class BaseModel {
    /** `self.__class__`. */
    const kind: Kinds.Kind
    var id: string
    var createdAt: Timestamp
    var updatedAt: Timestamp
    /** The rest of `self.__dict__`: instance attributes other than the three above. */
    var fields: map<string, string>

    ghost predicate Valid()
      reads this
    {
      fields.Keys !! Reserved
    }

    /** The timestamps are in chronological order. */
    ghost predicate Chronological()
      reads this
    {
      NotAfter(createdAt, updatedAt)
    }

    /** The keys of `self.__dict__`. */
    function AttributeNames(): set<string>
      reads this
    {
      fields.Keys + {"id", "created_at", "updated_at"}
    }

    /**
     * `BaseModel.__init__` on its own, as used by every kind except User:
     * `created` and `updated` are two successive readings of the clock.
     * Nothing is registered with storage.
     */
    constructor Plain(kind: Kinds.Kind, newId: string, created: Timestamp, updated: Timestamp)
      requires kind != Kinds.User
      ensures Valid() && this.kind == kind && fields == map[]
      ensures id == newId && createdAt == created && updatedAt == updated
      ensures NotAfter(created, updated) ==> Chronological()
    {
      this.kind := kind;
      fields := map[];
      new;
      Init(newId, created, updated);
    }

    /** `User.__init__`: four empty instance attributes, then the base constructor. */
    constructor NewUser(newId: string, created: Timestamp, updated: Timestamp)
      ensures Valid() && kind == Kinds.User && fields == UserFields
      ensures id == newId && createdAt == created && updatedAt == updated
      ensures NotAfter(created, updated) ==> Chronological()
    {
      kind := Kinds.User;
      fields := map[];
      new;
      fields := fields["email" := ""];
      fields := fields["password" := ""];
      fields := fields["first_name" := ""];
      fields := fields["last_name" := ""];
      Init(newId, created, updated);
    }

    /** The body of `BaseModel.__init__`: identity and both timestamps. */
    method Init(newId: string, created: Timestamp, updated: Timestamp)
      modifies this
      ensures id == newId && createdAt == created && updatedAt == updated
      ensures fields == old(fields)
    {
      id := newId;
      createdAt := created;
      updatedAt := updated;
    }

    /**
     * `to_dict()`: a copy of the attributes with both timestamps rendered by
     * `isoformat()` and the class name added under `__class__`. The instance
     * itself is left as it was.
     */
    function ToDict(): (r: Record)
      reads this
      requires Valid()
      ensures r.Keys == AttributeNames() + {"__class__"}
      ensures r["__class__"] == Kinds.Name(kind) && r["id"] == id
      ensures r["created_at"] == IsoFormat(createdAt) && r["updated_at"] == IsoFormat(updatedAt)
      ensures forall a :: a in fields ==> r[a] == fields[a]
    {
      fields + map["id" := id, "created_at" := IsoFormat(createdAt),
                   "updated_at" := IsoFormat(updatedAt), "__class__" := Kinds.Name(kind)]
    }

    /**
     * `__str__`: "[<class>] (<id>) " followed by the text of `self.__dict__`,
     * which is passed in because Python's `repr` of a dict is not modelled.
     */
    function Str(dictText: string): (s: string)
      reads this
      ensures StartsWith(s, "[" + Kinds.Name(kind) + "] (" + id + ") ")
    {
      "[" + Kinds.Name(kind) + "] (" + id + ") " + dictText
    }

    /** `save()`: only `updated_at` moves, to the current time; storage is not touched. */
    method Save(now: Timestamp)
      requires Valid()
      modifies this`updatedAt
      ensures Valid() && updatedAt == now
      ensures id == old(id) && createdAt == old(createdAt) && fields == old(fields)
      ensures old(Chronological()) && NotAfter(old(updatedAt), now) ==> Chronological()
    {
      NotAfterTransitive(createdAt, updatedAt, now);
      updatedAt := now;
    }
  }

  lemma NotAfterTransitive(a: DateTime, b: DateTime, c: DateTime)
    ensures NotAfter(a, b) && NotAfter(b, c) ==> NotAfter(a, c)
  {
  }

  /**
   * The record determines the instance: two valid instances with the same
   * `to_dict()` agree on class, id, both timestamps and every other attribute.
   */
  lemma ToDictLossless(a: BaseModel, b: BaseModel)
    requires a.Valid() && b.Valid() && a.ToDict() == b.ToDict()
    ensures a.kind == b.kind && a.id == b.id
    ensures a.createdAt == b.createdAt && a.updatedAt == b.updatedAt
    ensures a.fields == b.fields
  {
    var r := a.ToDict();
    Kinds.LookupName(a.kind);
    Kinds.LookupName(b.kind);
    IsoInjective(a.createdAt, b.createdAt);
    IsoInjective(a.updatedAt, b.updatedAt);
    assert a.fields.Keys == r.Keys - Reserved == b.fields.Keys;
  }

  /** `str(obj)` shows "[<class>]" and "(<id>)". */
  lemma StrShowsClassAndId(o: BaseModel, dictText: string)
    ensures Contains(o.Str(dictText), "[" + Kinds.Name(o.kind) + "]")
    ensures Contains(o.Str(dictText), "(" + o.id + ")")
  {
    var s := o.Str(dictText);
    var name := Kinds.Name(o.kind);
    assert OccursAt(s, "[" + name + "]", 0);
    var j := |name| + 3;
    assert OccursAt(s, "(" + o.id + ")", j);
  }

  /** A fresh User has its four attributes in `to_dict()`, each the empty string. */
  lemma FreshUserRecord(u: BaseModel)
    requires u.Valid() && u.kind == Kinds.User && u.fields == UserFields
    ensures u.ToDict()["__class__"] == "User"
    ensures forall a :: a in UserFields ==> a in u.ToDict() && u.ToDict()[a] == ""
  {
  }

  /**
   * Class-level attributes never reach `to_dict()` for an instance built by
   * its constructor: they are not instance attributes.
   */
  lemma ClassAttributesNotRecorded(o: BaseModel)
    requires o.Valid() && o.kind != Kinds.User && o.fields == map[]
    ensures forall a :: a in Kinds.ClassAttributes(o.kind) ==> a !in o.ToDict()
  {
  }
}
