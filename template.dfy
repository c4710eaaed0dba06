/**
 * The per-kind object registry (the generic class template): every script
 * object of one kind is paired with a host-owned bag of state, and the bag
 * is found again by scanning the list for the object's handle.
 */
module Template {
  import opened Wrappers
  import opened Mruby

  /** The host-owned state of one script object, shared by reference. */
  class Vars<T> {
    var value: T

    constructor (zero: T)
      ensures value == zero
    {
      value := zero;
    }
  }

  /** One record of the registry: the script handle and its state bag. */
  datatype Instance<T> = Instance(self: Handle, vars: Vars<T>)

  /** Position of the first record whose handle is `h`, in list order. */
  function FirstMatch<T>(objects: seq<Instance<T>>, h: Handle): (r: Option<nat>)
    ensures r.Some? ==> r.value < |objects| && objects[r.value].self == h
    ensures r.Some? ==> forall j :: 0 <= j < r.value ==> objects[j].self != h
    ensures r.None? ==> forall j :: 0 <= j < |objects| ==> objects[j].self != h
  {
    if objects == [] then None
    else if objects[0].self == h then Some(0)
    else match FirstMatch(objects[1..], h)
      case None => None
      case Some(k) => Some(k + 1)
  }

  /** Appending a record never changes which record an existing handle finds. */
  lemma {:induction false} FirstMatchAppend<T>(objects: seq<Instance<T>>, o: Instance<T>, h: Handle)
    ensures FirstMatch(objects + [o], h) ==
      if FirstMatch(objects, h).Some? then FirstMatch(objects, h)
      else if o.self == h then Some(|objects|)
      else None
  {
    if objects != [] && objects[0].self != h {
      assert (objects + [o])[1..] == objects[1..] + [o];
      FirstMatchAppend(objects[1..], o, h);
    }
  }

  /** The message `LookupVars` fails with for a handle it does not know. */
  function NotFoundMessage(className: string): (m: string)
    ensures |m| > |className|
    ensures m[..|className|] == className
  {
    className + ": could not find class instance"
  }

  /** The registry of one resource kind. */
  class Registry<T> {
    const className: string
    /** The zero value a fresh state bag starts with. */
    const zero: T
    var objects: seq<Instance<T>>

    /** Every record owns its bag exclusively: no two records share one. */
    ghost predicate Valid()
      reads this
    {
      forall i, j :: 0 <= i < j < |objects| ==> objects[i].vars != objects[j].vars
    }

    /** The state bags of all records. */
    ghost function Bags(): set<Vars<T>>
      reads this
    {
      set i | 0 <= i < |objects| :: objects[i].vars
    }

    constructor (className: string, zero: T)
      ensures Valid()
      ensures this.className == className && this.zero == zero && objects == []
    {
      this.className := className;
      this.zero := zero;
      objects := [];
    }

    /** The bag of the first record whose handle is `h`, if there is one. */
    function Find(h: Handle): (r: Option<Vars<T>>)
      reads this
      ensures r.Some? <==> exists i :: 0 <= i < |objects| && objects[i].self == h
      ensures r.Some? ==> r.value in Bags()
    {
      match FirstMatch(objects, h)
      case None => None
      case Some(i) => Some(objects[i].vars)
    }

    /** The bags a handler working on `h` may write: that record's alone. */
    ghost function BagsFor(h: Handle): set<Vars<T>>
      reads this
    {
      if Find(h).Some? then {Find(h).value} else {}
    }

    /** The class method `object_count`. */
    method ObjectCount() returns (v: Value)
      ensures v.Fixnum? && v.n == |objects|
    {
      v := Fixnum(|objects|);
    }

    /**
     * Creates a script object with a fresh zero-valued bag and records the
     * pair. `made` is what the interpreter's own class constructor gives:
     * the new handle, or its error.
     */
    method New(made: Result<Handle>) returns (r: Result<Instance<T>>)
      requires Valid()
      modifies this
      ensures Valid()
      ensures made.Failure? ==> r == Failure(made.error) && objects == old(objects)
      ensures made.Success? ==> r.Success? && r.value.self == made.value
      ensures made.Success? ==> fresh(r.value.vars) && r.value.vars.value == zero
      ensures made.Success? ==> objects == old(objects) + [r.value]
      ensures made.Success? && old(Find(made.value)).None? ==> Find(made.value) == Some(r.value.vars)
      ensures forall h :: old(Find(h)).Some? ==> Find(h) == old(Find(h))
    {
      if made.Failure? {
        return Failure(made.error);
      }
      var bag := new Vars(zero);
      var o := Instance(made.value, bag);
      forall h {
        FirstMatchAppend(objects, o, h);
      }
      objects := objects + [o];
      r := Success(o);
    }

    /** Finds the bag of the first record whose handle is `h`. */
    method LookupVars(h: Handle) returns (r: Result<Vars<T>>)
      ensures Find(h).Some? ==> r == Success(Find(h).value)
      ensures Find(h).None? ==> r == Failure(NotFoundMessage(className))
    {
      var i := 0;
      while i < |objects|
        invariant 0 <= i <= |objects|
        invariant forall j :: 0 <= j < i ==> objects[j].self != h
      {
        if objects[i].self == h {
          return Success(objects[i].vars);
        }
        i := i + 1;
      }
      r := Failure(NotFoundMessage(className));
    }
  }
}
