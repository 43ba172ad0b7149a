/**
 * The table of model classes the console knows (`HBNBCommand.classes`)
 * and what each class declares at class level.
 */
module Kinds {
  import opened Wrappers
  import Text

  datatype Kind = BaseModel | User | State | City | Place | Amenity | Review

  /** `cls.__name__`. */
  function Name(k: Kind): string {
    match k
    case BaseModel => "BaseModel"
    case User => "User"
    case State => "State"
    case City => "City"
    case Place => "Place"
    case Amenity => "Amenity"
    case Review => "Review"
  }

  /** `HBNBCommand.classes.get(name)`. */
  function Lookup(name: string): (r: Option<Kind>)
    ensures r.Some? ==> Name(r.value) == name
  {
    if name == "BaseModel" then Some(BaseModel)
    else if name == "User" then Some(User)
    else if name == "State" then Some(State)
    else if name == "City" then Some(City)
    else if name == "Place" then Some(Place)
    else if name == "Amenity" then Some(Amenity)
    else if name == "Review" then Some(Review)
    else None
  }

  /** `name in HBNBCommand.classes`. */
  predicate IsClass(name: string) {
    Lookup(name).Some?
  }

  /** The table is a bijection between kinds and their names. */
  lemma LookupName(k: Kind)
    ensures Lookup(Name(k)) == Some(k)
  {
  }

  /** A value a class body assigns to a class attribute. */
  datatype ClassValue = Str(s: string) | Int(i: int)

  /**
   * Class attributes declared in the class body of each kind. They live on the
   * class, not on instances, so `to_dict` never sees them. Place's float and
   * list attributes (`latitude`, `longitude`, `amenity_ids`) are not listed.
   */
  function ClassAttributes(k: Kind): map<string, ClassValue> {
    match k
    case Place =>
      map["city_id" := Str(""), "user_id" := Str(""), "name" := Str(""), "description" := Str(""),
          "number_rooms" := Int(0), "number_bathrooms" := Int(0), "max_guest" := Int(0),
          "price_by_night" := Int(0)]
    case Review => map["place_id" := Str(""), "user_id" := Str(""), "text" := Str("")]
    case City => map["name" := Str(""), "state_id" := Str("")]
    case State => map["name" := Str("")]
    case _ => map[]
  }

  /** A class name is one `str.split()` token and holds neither '.' nor '('. */
  lemma NameIsPlain(k: Kind)
    ensures Text.IsWord(Name(k))
    ensures '.' !in Name(k) && '(' !in Name(k)
  {
  }

  /** No class name is a proper prefix of another, so `startswith` can tell them apart. */
  lemma NamesPrefixFree(a: Kind, b: Kind)
    requires |Name(a)| <= |Name(b)| && Name(b)[..|Name(a)|] == Name(a)
    ensures a == b
  {
    assert Name(a)[0] == Name(b)[..|Name(a)|][0] == Name(b)[0];
  }
}
