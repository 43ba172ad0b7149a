/**
 * The command handlers of the shell. Each handler is a deterministic decision
 * over the whitespace-split argument list and the registry; what the Python
 * code prints is returned as an `Outcome` instead.
 */
module Console {
  import opened Wrappers
  import opened Text
  import opened DateTimes
  import Kinds
  import Models
  import opened Storage

  const ClassNameMissing := "** class name missing **"
  const ClassDoesntExist := "** class doesn't exist **"
  const InstanceIdMissing := "** instance id missing **"
  const NoInstanceFound := "** no instance found **"
  const AttributeNameMissing := "** attribute name missing **"
  const ValueMissing := "** value missing **"

  /** Exceptions a handler lets escape. */
  datatype Fault =
    | IndexError         // `parts[1]` of a line without '.'
    | ValueError         // the method part does not split into exactly two pieces on '('
    | RecordNotAnObject  // any attribute update: the registry value is a dict

  /** What a handler prints, or the exception it raises. */
  datatype Outcome =
    | Printed(message: string)
    | Created(id: string)
    | Shown(record: Models.Record)
    | Listed(records: Registry)
    | Counted(count: nat)
    | Silent
    | Raised(fault: Fault)

  /**
   * The checks `show`, `destroy` and `update` make before touching the
   * registry, in their order; on success, the key to look up.
   */
  function Locate(args: seq<string>): (r: Result<string, string>)
    ensures |args| == 0 ==> r == Failure(ClassNameMissing)
    ensures |args| >= 1 && !Kinds.IsClass(args[0]) ==> r == Failure(ClassDoesntExist)
    ensures |args| == 1 && Kinds.IsClass(args[0]) ==> r == Failure(InstanceIdMissing)
    ensures r.Success? <==> |args| >= 2 && Kinds.IsClass(args[0])
    ensures r.Success? ==> r.value == Key(args[0], args[1])
  {
    if |args| == 0 then Failure(ClassNameMissing)
    else if !Kinds.IsClass(args[0]) then Failure(ClassDoesntExist)
    else if |args| == 1 then Failure(InstanceIdMissing)
    else Success(Key(args[0], args[1]))
  }

  /** What `show` prints for an argument list. */
  function ShowOutcome(args: seq<string>, m: Registry): Outcome {
    match Locate(args)
    case Failure(msg) => Printed(msg)
    case Success(key) => if key in m then Shown(m[key]) else Printed(NoInstanceFound)
  }

  /** What `destroy` prints for an argument list: nothing when the key is present. */
  function DestroyOutcome(args: seq<string>, m: Registry): Outcome {
    match Locate(args)
    case Failure(msg) => Printed(msg)
    case Success(key) => if key in m then Silent else Printed(NoInstanceFound)
  }

  /** The entries `all <class>` lists: those whose key's class part is `className`. */
  function Select(m: Registry, className: string): (r: Registry)
    ensures forall k :: k in r <==> k in m && ClassSegment(k) == className
    ensures forall k :: k in r ==> r[k] == m[k]
  {
    map k | k in m && ClassSegment(k) == className :: m[k]
  }

  /** What `<class>.count()` prints: the number of keys that start with `className`. */
  function Count(m: Registry, className: string): (n: nat)
    ensures n <= |m|
    ensures n == 0 <==> forall k | k in m :: !StartsWith(k, className)
  {
    var counted := set k | k in m && StartsWith(k, className);
    SubsetCardinality(counted, m.Keys);
    NoneCountedWhenNoneMatch(m, className);
    |counted|
  }

  lemma NoneCountedWhenNoneMatch(m: Registry, className: string)
    ensures (set k | k in m && StartsWith(k, className)) == {}
            <==> forall k | k in m :: !StartsWith(k, className)
  {
    var counted := set k | k in m && StartsWith(k, className);
    if counted != {} {
      var k :| k in counted;
      assert k in m && StartsWith(k, className);
    } else {
      forall k | k in m
        ensures !StartsWith(k, className)
      {
        assert k !in counted;
      }
    }
  }

  /**
   * `create <class>`: builds an instance (ids and clock readings are passed
   * in), advances its `updated_at` with `save()`, and prints the id. The
   * registry is not touched: neither the constructor nor `save()` registers.
   */
  method DoCreate(arg: string, newId: string, created: Timestamp, updated: Timestamp, now: Timestamp)
    returns (o: Outcome)
    ensures arg == "" ==> o == Printed(ClassNameMissing)
    ensures arg != "" && !Kinds.IsClass(arg) ==> o == Printed(ClassDoesntExist)
    ensures Kinds.IsClass(arg) ==> o == Created(newId)
  {
    if arg == "" {
      return Printed(ClassNameMissing);
    }
    var kind := Kinds.Lookup(arg);
    if kind.Some? {
      var obj: Models.BaseModel;
      if kind.value == Kinds.User {
        obj := new Models.BaseModel.NewUser(newId, created, updated);
      } else {
        obj := new Models.BaseModel.Plain(kind.value, newId, created, updated);
      }
      obj.Save(now);
      o := Created(obj.id);
    } else {
      o := Printed(ClassDoesntExist);
    }
  }

  /** `show <class> <id>`. */
  method DoShow(store: FileStorage, arg: string) returns (o: Outcome)
    ensures o == ShowOutcome(Words(arg), store.objects)
    ensures o.Shown? <==> Locate(Words(arg)).Success? && Locate(Words(arg)).value in store.objects
    ensures o.Shown? ==> o.record == store.objects[Locate(Words(arg)).value]
  {
    var args := Words(arg);
    if |args| == 0 {
      return Printed(ClassNameMissing);
    }
    var className := args[0];
    if !Kinds.IsClass(className) {
      return Printed(ClassDoesntExist);
    }
    if |args| == 1 {
      return Printed(InstanceIdMissing);
    }
    var objId := args[1];
    var allObjects := store.All();
    var key := Key(className, objId);
    if key in allObjects {
      o := Shown(allObjects[key]);
    } else {
      o := Printed(NoInstanceFound);
    }
  }

  /** `destroy <class> <id>`: deletes the key from the live registry, then saves it. */
  method DoDestroy(store: FileStorage, arg: string) returns (o: Outcome)
    modifies store
    ensures o == DestroyOutcome(Words(arg), old(store.objects))
    ensures o == Silent ==>
      && store.objects == old(store.objects) - {Locate(Words(arg)).value}
      && Locate(Words(arg)).value !in store.All()
      && store.file == Some(store.objects)
    ensures o != Silent ==> store.objects == old(store.objects) && store.file == old(store.file)
    ensures WellKeyed(old(store.objects)) ==> WellKeyed(store.objects)
  {
    var args := Words(arg);
    if |args| == 0 {
      return Printed(ClassNameMissing);
    }
    var className := args[0];
    if !Kinds.IsClass(className) {
      return Printed(ClassDoesntExist);
    }
    if |args| == 1 {
      return Printed(InstanceIdMissing);
    }
    var objId := args[1];
    var key := Key(className, objId);
    if key in store.All() {
      store.objects := store.All() - {key};
      store.Save();
      o := Silent;
    } else {
      o := Printed(NoInstanceFound);
    }
  }

  /** `all [<class>]`: every entry, or those whose key's class part is the class named. */
  method DoAll(store: FileStorage, arg: string) returns (o: Outcome)
    ensures |Words(arg)| == 0 ==> o == Listed(store.objects)
    ensures |Words(arg)| >= 1 && !Kinds.IsClass(Words(arg)[0]) ==> o == Printed(ClassDoesntExist)
    ensures |Words(arg)| >= 1 && Kinds.IsClass(Words(arg)[0]) ==>
              o == Listed(Select(store.objects, Words(arg)[0]))
  {
    var args := Words(arg);
    var allObjects := store.All();
    if |args| == 0 {
      return Listed(allObjects);
    }
    var className := args[0];
    if !Kinds.IsClass(className) {
      return Printed(ClassDoesntExist);
    }
    var selected: Registry := map[];
    var pending := allObjects.Keys;
    while pending != {}
      invariant pending <= allObjects.Keys
      invariant forall k :: k in selected <==>
                  k in allObjects && k !in pending && ClassSegment(k) == className
      invariant forall k :: k in selected ==> selected[k] == allObjects[k]
      decreases pending
    {
      var key :| key in pending;
      if ClassSegment(key) == className {
        selected := selected[key := allObjects[key]];
      }
      pending := pending - {key};
    }
    o := Listed(selected);
  }

  /**
   * `update <class> <id> <attribute> <value>`, as far as its checks go. The
   * attribute checks come only after the key is found. With all four
   * arguments the handler calls `setattr` on the stored record, which is a
   * dict, so it raises before anything changes.
   */
  method DoUpdate(store: FileStorage, arg: string) returns (o: Outcome)
    ensures Locate(Words(arg)).Failure? ==> o == Printed(Locate(Words(arg)).error)
    ensures Locate(Words(arg)).Success? && Locate(Words(arg)).value !in store.objects ==>
              o == Printed(NoInstanceFound)
    ensures Locate(Words(arg)).Success? && Locate(Words(arg)).value in store.objects ==>
              o == (if |Words(arg)| == 2 then Printed(AttributeNameMissing)
                    else if |Words(arg)| == 3 then Printed(ValueMissing)
                    else Raised(RecordNotAnObject))
  {
    var args := Words(arg);
    if |args| == 0 {
      return Printed(ClassNameMissing);
    }
    var className := args[0];
    if !Kinds.IsClass(className) {
      return Printed(ClassDoesntExist);
    }
    if |args| == 1 {
      return Printed(InstanceIdMissing);
    }
    var objId := args[1];
    var allObjects := store.All();
    var key := Key(className, objId);
    if key !in allObjects {
      return Printed(NoInstanceFound);
    }
    if |args| == 2 {
      return Printed(AttributeNameMissing);
    }
    if |args| == 3 {
      return Printed(ValueMissing);
    }
    o := Raised(RecordNotAnObject);
  }

  /** A line of the form `<class>.<method>(<argument>)`, taken apart. */
  datatype Call = Call(className: string, methodName: string, argument: string)

  /**
   * The parsing half of `default`: split on '.', check the class, split the
   * second piece on '(' into exactly two parts, and strip trailing ')'.
   */
  function ParseCall(line: string): (r: Result<Call, Outcome>)
    ensures r.Success? ==> Kinds.IsClass(r.value.className) && '.' !in r.value.className
    ensures r.Success? ==> '(' !in r.value.methodName
    ensures r.Success? ==> r.value.argument == [] || r.value.argument[|r.value.argument| - 1] != ')'
  {
    var parts := Split(line, '.');
    if |parts| < 2 then Failure(Raised(IndexError))
    else if !Kinds.IsClass(parts[0]) then Failure(Printed(ClassDoesntExist))
    else
      var pieces := Split(parts[1], '(');
      if |pieces| != 2 then Failure(Raised(ValueError))
      else Success(Call(parts[0], pieces[0], RStrip(pieces[1], ')')))
  }

  /**
   * What running a parsed call does: `o` is what it prints, `m0`/`f0` the
   * registry and file before, `m1`/`f1` after.
   */
  ghost predicate Dispatched(call: Call, o: Outcome, m0: Registry, f0: Option<Registry>,
                             m1: Registry, f1: Option<Registry>)
  {
    var args := Words(Spaced(call));
    && (call.methodName == "all" ==> o == Listed(Select(m0, call.className)))
    && (call.methodName == "count" ==> o == Counted(Count(m0, call.className)))
    && (call.methodName == "show" ==> o == ShowOutcome(args, m0))
    && (call.methodName == "destroy" ==> o == DestroyOutcome(args, m0))
    && (call.methodName !in {"all", "count", "show", "destroy"} ==> o == Silent)
    && (if call.methodName == "destroy" && o == Silent
        then m1 == m0 - {Locate(args).value} && f1 == Some(m1)
        else m1 == m0 && f1 == f0)
  }

  /** The dispatching half of `default`. */
  method Dispatch(store: FileStorage, call: Call) returns (o: Outcome)
    requires Kinds.IsClass(call.className)
    modifies store
    ensures Dispatched(call, o, old(store.objects), old(store.file), store.objects, store.file)
  {
    if call.methodName == "all" {
      ClassNameIsPlain(call.className);
      WordsOfJoin([call.className]);
      o := DoAll(store, call.className);
    } else if call.methodName == "count" {
      o := Counted(Count(store.All(), call.className));
    } else if call.methodName == "show" {
      o := DoShow(store, Spaced(call));
    } else if call.methodName == "destroy" {
      o := DoDestroy(store, Spaced(call));
    } else {
      o := Silent;
    }
  }

  /** `default(line)`: parse, then run `all`, `count`, `show` or `destroy`; any other method does nothing. */
  method Default(store: FileStorage, line: string) returns (o: Outcome)
    modifies store
    ensures ParseCall(line).Failure? ==>
      o == ParseCall(line).error && store.objects == old(store.objects) && store.file == old(store.file)
    ensures ParseCall(line).Success? ==>
      Dispatched(ParseCall(line).value, o, old(store.objects), old(store.file), store.objects, store.file)
  {
    var parsed := ParseCall(line);
    if parsed.Failure? {
      return parsed.error;
    }
    o := Dispatch(store, parsed.value);
  }

  /** The argument line `default` hands to `show` and `destroy`: "<class> <argument>". */
  function Spaced(call: Call): string {
    call.className + " " + call.argument
  }

  /** A name in the class table is a single token free of '.' and '('. */
  lemma ClassNameIsPlain(name: string)
    requires Kinds.IsClass(name)
    ensures IsWord(name) && '.' !in name && '(' !in name
  {
    Kinds.NameIsPlain(Kinds.Lookup(name).value);
  }

  /**
   * On a key built from a class of the table, `startswith(c)` for a class
   * `c` of the table holds exactly when the key's class part is `c`.
   */
  lemma PrefixTestMatchesClassPart(n: string, id: string, c: string)
    requires Kinds.IsClass(n) && Kinds.IsClass(c)
    ensures StartsWith(Key(n, id), c) <==> n == c
  {
    var key := Key(n, id);
    ClassNameIsPlain(n);
    ClassNameIsPlain(c);
    if n == c {
      assert key[..|n|] == n;
    }
    if StartsWith(key, c) {
      if |c| <= |n| {
        assert key[..|c|] == n[..|c|];
        Kinds.NamesPrefixFree(Kinds.Lookup(c).value, Kinds.Lookup(n).value);
      } else {
        SeparatorInLongerPrefix(n, id, c);
      }
    }
  }

  /** A prefix of "<n>.<id>" longer than `n` takes in the separator. */
  lemma SeparatorInLongerPrefix(n: string, id: string, c: string)
    requires StartsWith(Key(n, id), c) && |c| > |n|
    ensures '.' in c
  {
    assert c[|n|] == Key(n, id)[|n|] == '.';
  }

  /** On a well-keyed registry, every entry's class part is the class its record names. */
  lemma ClassPartIsRecordClass(m: Registry, k: string)
    requires WellKeyed(m) && k in m
    ensures ClassSegment(k) == m[k]["__class__"]
  {
    ClassNameIsPlain(m[k]["__class__"]);
    KeyClassSegment(m[k]["__class__"], m[k]["id"]);
  }

  /**
   * `all <class>` leaks no other class: on a well-keyed registry it lists
   * exactly the records whose `__class__` is the class asked for.
   */
  lemma SelectIsolatesKinds(m: Registry, c: string)
    requires WellKeyed(m)
    ensures forall k :: k in Select(m, c) <==> k in m && m[k]["__class__"] == c
  {
    forall k | k in m
      ensures ClassSegment(k) == m[k]["__class__"]
    {
      ClassPartIsRecordClass(m, k);
    }
  }

  /**
   * On a well-keyed registry `<class>.count()` agrees with `all <class>`,
   * although one tests a prefix and the other the class part of the key.
   */
  lemma CountAgreesWithAll(m: Registry, c: string)
    requires WellKeyed(m) && Kinds.IsClass(c)
    ensures Count(m, c) == |Select(m, c)|
  {
    var counted := set k | k in m && StartsWith(k, c);
    forall k | k in m
      ensures StartsWith(k, c) <==> ClassSegment(k) == c
    {
      ClassPartIsRecordClass(m, k);
      PrefixTestMatchesClassPart(m[k]["__class__"], m[k]["id"], c);
    }
    assert counted == Select(m, c).Keys;
  }

  /** The prefix test is weaker in general: a key whose class part only starts with "User" is counted but not listed. */
  lemma CountDiffersFromAll()
    ensures Count(map["Users.1" := map[]], "User") == 1
    ensures Select(map["Users.1" := map[]], "User") == map[]
  {
    var m: Registry := map["Users.1" := map[]];
    assert "Users.1"[..4] == "User";
    assert (set k | k in m && StartsWith(k, "User")) == {"Users.1"};
    SplitAtFirst("Users", '.', "1");
    assert "Users.1" == "Users" + ['.'] + "1";
  }

  /** Every key `all <class>` lists is also counted by `<class>.count()`, in any registry. */
  lemma SelectWithinCount(m: Registry, c: string)
    ensures Select(m, c).Keys <= set k | k in m && StartsWith(k, c)
    ensures |Select(m, c)| <= Count(m, c)
  {
    var counted := set k | k in m && StartsWith(k, c);
    forall k | k in Select(m, c)
      ensures k in counted
    {
      assert StartsWith(k, Split(k, '.')[0]);
    }
    SubsetCardinality(Select(m, c).Keys, counted);
  }

  lemma {:induction false} SubsetCardinality<T>(a: set<T>, b: set<T>)
    requires a <= b
    ensures |a| <= |b|
    decreases |b|
  {
    if b != {} {
      var x :| x in b;
      SubsetCardinality(a - {x}, b - {x});
    }
  }

  /** A first piece that is not a class name prints "class doesn't exist", whatever follows the '.'. */
  lemma UnknownClassRejected(c: string, rest: string)
    requires '.' !in c && !Kinds.IsClass(c)
    ensures ParseCall(c + "." + rest) == Failure(Printed(ClassDoesntExist))
  {
    SplitAtFirst(c, '.', rest);
    assert c + "." + rest == c + ['.'] + rest;
  }

  /** A method part with no '(' makes the unpacking of `split('(')` raise ValueError. */
  lemma NoParenRaises(c: string, name: string)
    requires Kinds.IsClass(c) && '.' !in name && '(' !in name
    ensures ParseCall(c + "." + name) == Failure(Raised(ValueError))
  {
    ClassNameIsPlain(c);
    SplitAtFirst(c, '.', name);
    assert c + "." + name == c + ['.'] + name;
    SplitWithoutSeparator(name, '.');
    SplitWithoutSeparator(name, '(');
  }

  /** A method part with two or more '(' also makes the unpacking raise ValueError. */
  lemma TwoParensRaise(c: string, name: string, a: string, b: string)
    requires Kinds.IsClass(c)
    requires '.' !in name && '.' !in a && '.' !in b
    requires '(' !in name && '(' !in a
    ensures ParseCall(c + "." + name + "(" + a + "(" + b) == Failure(Raised(ValueError))
  {
    ClassNameIsPlain(c);
    var rest := name + "(" + a + "(" + b;
    assert c + "." + name + "(" + a + "(" + b == c + ['.'] + rest;
    SplitAtFirst(c, '.', rest);
    SplitWithoutSeparator(rest, '.');
    assert rest == name + ['('] + (a + ['('] + b);
    SplitAtFirst(name, '(', a + ['('] + b);
    SplitAtFirst(a, '(', b);
  }

  /** A line with no '.' makes `default` raise IndexError on `parts[1]`. */
  lemma NoDotRaises(line: string)
    requires '.' !in line
    ensures ParseCall(line) == Failure(Raised(IndexError))
  {
    SplitWithoutSeparator(line, '.');
  }

  /** `<class>.<name>(<argument>)` is taken apart into its three pieces. */
  lemma ParseDottedCall(c: string, name: string, argument: string)
    requires Kinds.IsClass(c)
    requires '.' !in name && '(' !in name
    requires '.' !in argument && '(' !in argument
    requires argument == [] || argument[|argument| - 1] != ')'
    ensures ParseCall(c + "." + name + "(" + argument + ")") == Success(Call(c, name, argument))
  {
    ClassNameIsPlain(c);
    var closed := argument + ")";
    var rest := name + "(" + closed;
    assert c + "." + name + "(" + argument + ")" == c + ['.'] + rest;
    SplitAtFirst(c, '.', rest);
    SplitWithoutSeparator(rest, '.');
    assert rest == name + ['('] + closed;
    SplitAtFirst(name, '(', closed);
    SplitWithoutSeparator(closed, '(');
    assert closed[..|closed| - 1] == argument;
  }

  /**
   * An id containing '.' cannot be reached through `default`: the line is
   * cut at the second '.', so only the id's first part is looked up.
   */
  lemma DottedIdIsCut(c: string, id1: string, id2: string)
    requires Kinds.IsClass(c)
    requires '.' !in id1 && '(' !in id1 && (id1 == [] || id1[|id1| - 1] != ')')
    ensures ParseCall(c + ".show(" + id1 + "." + id2 + ")") == Success(Call(c, "show", id1))
  {
    ClassNameIsPlain(c);
    var head := "show(" + id1;
    var tail := id2 + ")";
    assert c + ".show(" + id1 + "." + id2 + ")" == c + ['.'] + (head + ['.'] + tail);
    SplitAtFirst(c, '.', head + ['.'] + tail);
    SplitAtFirst(head, '.', tail);
    assert head == "show" + ['('] + id1;
    SplitAtFirst("show", '(', id1);
    SplitWithoutSeparator(id1, '(');
  }

  /** `<class>.show(<id>)` prints what `show <class> <id>` prints. */
  lemma DottedShowIsShow(c: string, id: string, m: Registry)
    requires Kinds.IsClass(c) && IsWord(id)
    requires '.' !in id && '(' !in id && id[|id| - 1] != ')'
    ensures ParseCall(c + ".show(" + id + ")") == Success(Call(c, "show", id))
    ensures ShowOutcome(Words(Spaced(Call(c, "show", id))), m)
            == if Key(c, id) in m then Shown(m[Key(c, id)]) else Printed(NoInstanceFound)
  {
    ParseDottedCall(c, "show", id);
    assert c + ".show(" + id + ")" == c + "." + "show" + "(" + id + ")";
    ClassNameIsPlain(c);
    WordsOfJoin([c, id]);
    assert JoinWords([c, id]) == Spaced(Call(c, "show", id));
  }
}
