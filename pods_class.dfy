/**
 * The `Pods` collection class: the template registry of `Pods` objects,
 * each holding a list of pods, and its own methods `get!`, `inspect`,
 * `[]`, `count`, `first`, `any` and `last`. Every accessor that succeeds
 * creates one new object in the `Pod` registry, seeded with the chosen pod.
 */
module PodsClass {
  import opened Wrappers
  import opened Mruby
  import opened Template
  import opened Text

  /** A remote pod, reduced to the fields the class reads. */
  datatype Pod = Pod(namespace: string, name: string)

  /** The zero value a fresh `Pod` object's bag starts with. */
  const ZeroPod: Pod := Pod("", "")

  /** The name filter of `get!` (a regular expression there), as a predicate on names. */
  type NameFilter = string -> bool

  const NotIntegerMessage: string := "Argument must be an integer"

  /**
   * The position `[]` reads for index `n` of a list of length `l`:
   * forward from 0, or backward from the end for `-(l-1) <= n < 0`;
   * anything else selects nothing.
   */
  function SelectIndex(n: int, l: nat): (r: Option<nat>)
    ensures r.Some? <==> 0 <= n < l || -(l - 1) <= n < 0
    ensures r.Some? ==> r.value < l
    ensures r.Some? && n >= 0 ==> r.value == n
    ensures r.Some? && n < 0 ==> r.value == l + n
  {
    if n >= l then None
    else if n >= 0 then Some(n)
    else if -(l - 1) <= n && n < 0 then Some(l + n)
    else None
  }

  /** Ruby's own `Array#[]` rule, for comparison: every `n` in `[-l, l)` selects. */
  function RubyArrayIndex(n: int, l: nat): (r: Option<nat>)
    ensures r.Some? <==> -(l as int) <= n < l
    ensures r.Some? ==> r.value < l
  {
    if 0 <= n < l then Some(n) else if -(l as int) <= n < 0 then Some(l + n) else None
  }

  /** A positive index and the same index counted from the end select the same pod. */
  lemma SelectFromEitherEnd(i: nat, l: nat)
    requires 1 <= i < l
    ensures SelectIndex(i, l) == SelectIndex(i - l, l) == Some(i)
  {
  }

  /** `[]` follows Ruby's rule everywhere except at `-l`, where it selects nothing. */
  lemma SelectDiffersFromRubyOnlyAtMinusLength(n: int, l: nat)
    ensures SelectIndex(n, l) != RubyArrayIndex(n, l) <==> l > 0 && n == -(l as int)
  {
  }

  /** The pods of `pods` whose names pass `keep`, in their order. */
  function Matching(pods: seq<Pod>, keep: NameFilter): (r: seq<Pod>)
    ensures |r| <= |pods|
  {
    if pods == [] then []
    else
      var rest := Matching(pods[..|pods| - 1], keep);
      var p := pods[|pods| - 1];
      assert pods == pods[..|pods| - 1] + [p];
      if keep(p.name) then rest + [p] else rest
  }

  /** Each matching pod is kept as often as it was fetched, every other pod not at all. */
  lemma {:induction false} MatchingCounts(pods: seq<Pod>, keep: NameFilter)
    ensures forall p :: multiset(Matching(pods, keep))[p] ==
                       (if keep(p.name) then multiset(pods)[p] else 0)
  {
    if pods != [] {
      var init := pods[..|pods| - 1];
      var q := pods[|pods| - 1];
      MatchingCounts(init, keep);
      assert pods == init + [q];
      assert multiset(pods) == multiset(init) + multiset{q};
    }
  }

  /** The filtered pods are exactly the fetched pods whose names pass the filter. */
  lemma MatchingMembers(pods: seq<Pod>, keep: NameFilter)
    ensures forall p :: p in Matching(pods, keep) <==> p in pods && keep(p.name)
  {
    MatchingCounts(pods, keep);
    forall p
      ensures p in Matching(pods, keep) <==> p in pods && keep(p.name)
    {
      assert p in Matching(pods, keep) <==> p in multiset(Matching(pods, keep));
      assert p in pods <==> p in multiset(pods);
    }
  }

  /** Filtering two fetched runs one after the other keeps their order: the matches of the first come first. */
  lemma {:induction false} MatchingConcat(a: seq<Pod>, b: seq<Pod>, keep: NameFilter)
    ensures Matching(a + b, keep) == Matching(a, keep) + Matching(b, keep)
    decreases |b|
  {
    if b == [] {
      assert a + b == a;
    } else {
      var init := b[..|b| - 1];
      assert (a + b)[..|a + b| - 1] == a + init;
      MatchingConcat(a, init, keep);
    }
  }

  /** Filtering one more fetched pod appends it exactly when its name matches. */
  lemma MatchingStep(pods: seq<Pod>, i: nat, keep: NameFilter)
    requires i < |pods|
    ensures Matching(pods[..i + 1], keep) ==
      Matching(pods[..i], keep) + (if keep(pods[i].name) then [pods[i]] else [])
  {
    assert pods[..i + 1][..i] == pods[..i];
  }

  /** The filtering loop of `get!`: appends to the bag, in order, the fetched pods whose name matches. */
  method AppendMatching(vars: Vars<seq<Pod>>, pods: seq<Pod>, keep: NameFilter)
    modifies vars
    ensures vars.value == old(vars.value) + Matching(pods, keep)
  {
    var i := 0;
    while i < |pods|
      invariant 0 <= i <= |pods|
      invariant vars.value == old(vars.value) + Matching(pods[..i], keep)
    {
      MatchingStep(pods, i, keep);
      if keep(pods[i].name) {
        vars.value := vars.value + [pods[i]];
      }
      i := i + 1;
    }
    assert pods[..i] == pods;
  }

  /**
   * The line `inspect` prints for the pod at position `i`: the index in
   * decimal, ": ", then the namespace and the name separated by "/".
   */
  function Line(i: nat, p: Pod): (r: string)
    ensures var d := NatToString(i);
      && |r| == |d| + 3 + |p.namespace| + |p.name|
      && r[..|d|] == d && r[|d|..|d| + 2] == ": "
      && r[|d| + 2..|d| + 2 + |p.namespace|] == p.namespace
      && r[|r| - |p.name| - 1] == '/' && r[|r| - |p.name|..] == p.name
  {
    var d := NatToString(i);
    var r := d + ": " + p.namespace + "/" + p.name;
    assert r == (d + ": ") + (p.namespace + "/" + p.name);
    r
  }

  /**
   * The outcome of a successful accessor: the `Pod` registry has grown by
   * exactly one record, whose handle is the one returned and whose fresh
   * bag holds `item`; on a constructor error nothing was recorded.
   */
  twostate predicate Spawned(reg: Registry<Pod>, item: Pod, made: Result<Handle>, new r: Result<Value>)
    reads reg, reg.Bags()
  {
    if made.Failure? then
      r == Failure(made.error) && reg.objects == old(reg.objects)
    else
      && r == Success(Obj(made.value))
      && |reg.objects| == |old(reg.objects)| + 1
      && reg.objects[..|old(reg.objects)|] == old(reg.objects)
      && reg.objects[|old(reg.objects)|].self == made.value
      && fresh(reg.objects[|old(reg.objects)|].vars)
      && reg.objects[|old(reg.objects)|].vars.value == item
  }

  class PodsClass {
    /** The records of `Pods` objects. */
    const registry: Registry<seq<Pod>>
    /** The registry of the singleton `Pod` class. */
    const podClass: Registry<Pod>

    constructor (registry: Registry<seq<Pod>>, podClass: Registry<Pod>)
      ensures this.registry == registry && this.podClass == podClass
    {
      this.registry := registry;
      this.podClass := podClass;
    }

    /** The pods held by the object `self`, when it is one of this class's. */
    function Items(self: Handle): seq<Pod>
      reads registry, registry.Bags()
      requires registry.Find(self).Some?
    {
      registry.Find(self).value.value
    }

    /**
     * `get!`: refreshes the pods held by `self`. `args` is what argument
     * parsing gives (an optional name filter, or an error) and `fetched`
     * what the remote list call returns. Without a filter the list is
     * replaced; with one the matching pods are appended to what is held.
     */
    method GetBang(self: Handle, args: Result<Option<NameFilter>>, fetched: Result<seq<Pod>>)
      returns (r: Result<Value>)
      modifies registry.BagsFor(self)
      ensures registry.Find(self).None? ==> r == Failure(NotFoundMessage(registry.className))
      ensures registry.Find(self).Some? && args.Failure? ==>
        r == Failure(args.error) && Items(self) == old(Items(self))
      ensures registry.Find(self).Some? && args.Success? && fetched.Failure? ==>
        r == Failure(fetched.error) && Items(self) == old(Items(self))
      ensures registry.Find(self).Some? && args.Success? && fetched.Success? ==> r == Success(Obj(self))
      ensures registry.Find(self).Some? && args == Success(None) && fetched.Success? ==>
        Items(self) == fetched.value
      ensures registry.Find(self).Some? && args.Success? && args.value.Some? && fetched.Success? ==>
        Items(self) == old(Items(self)) + Matching(fetched.value, args.value.value)
    {
      var found := registry.LookupVars(self);
      if found.Failure? {
        return Failure(found.error);
      }
      var vars := found.value;
      if args.Failure? {
        return Failure(args.error);
      }
      if fetched.Failure? {
        return Failure(fetched.error);
      }
      var pods := fetched.value;
      match args.value {
        case Some(keep) =>
          AppendMatching(vars, pods, keep);
        case None =>
          vars.value := pods;
      }
      r := Success(Obj(self));
    }

    /**
     * `Update`: refreshes `self` by calling its own `get!` with the same
     * arguments.
     */
    method Update(self: Handle, args: Result<Option<NameFilter>>, fetched: Result<seq<Pod>>)
      returns (r: Result<Value>)
      modifies registry.BagsFor(self)
      ensures registry.Find(self).None? ==> r.Failure?
      ensures registry.Find(self).Some? ==> (r.Success? <==> args.Success? && fetched.Success?)
      ensures registry.Find(self).Some? && args == Success(None) && fetched.Success? ==>
        Items(self) == fetched.value
      ensures registry.Find(self).Some? && args.Success? && args.value.Some? && fetched.Success? ==>
        Items(self) == old(Items(self)) + Matching(fetched.value, args.value.value)
      ensures registry.Find(self).Some? && r.Failure? ==> Items(self) == old(Items(self))
    {
      r := GetBang(self, args, fetched);
    }

    /** `inspect`: the line printed for each held pod, in order; returns `self`. */
    method Inspect(self: Handle) returns (r: Result<Value>, lines: seq<string>)
      ensures registry.Find(self).None? ==>
        r == Failure(NotFoundMessage(registry.className)) && lines == []
      ensures registry.Find(self).Some? ==> r == Success(Obj(self))
      ensures registry.Find(self).Some? ==>
        |lines| == |Items(self)| &&
        forall i :: 0 <= i < |lines| ==> lines[i] == Line(i, Items(self)[i])
    {
      lines := [];
      var found := registry.LookupVars(self);
      if found.Failure? {
        return Failure(found.error), lines;
      }
      var pods := found.value.value;
      var n := 0;
      while n < |pods|
        invariant 0 <= n <= |pods|
        invariant |lines| == n
        invariant forall i :: 0 <= i < n ==> lines[i] == Line(i, pods[i])
      {
        lines := lines + [Line(n, pods[n])];
        n := n + 1;
      }
      r := Success(Obj(self));
    }

    /** `count`: the number of pods held by `self`. */
    method Count(self: Handle) returns (r: Result<Value>)
      ensures registry.Find(self).None? ==> r == Failure(NotFoundMessage(registry.className))
      ensures registry.Find(self).Some? ==> r == Success(Fixnum(|Items(self)|))
    {
      var found := registry.LookupVars(self);
      if found.Failure? {
        return Failure(found.error);
      }
      r := Success(Fixnum(|found.value.value|));
    }

    /** Creates a `Pod` object seeded with `item` and returns its handle. */
    method SpawnPod(item: Pod, made: Result<Handle>) returns (r: Result<Value>)
      requires podClass.Valid()
      modifies podClass
      ensures podClass.Valid()
      ensures Spawned(podClass, item, made, r)
    {
      var created := podClass.New(made);
      if created.Failure? {
        return Failure(created.error);
      }
      created.value.vars.value := item;
      r := Success(Obj(created.value.self));
    }

    /**
     * `[]`: the pod at index `arg`, under `SelectIndex`'s rule, as a new
     * `Pod` object; null when the index selects nothing.
     */
    method At(self: Handle, arg: Value, made: Result<Handle>) returns (r: Result<Value>)
      requires podClass.Valid()
      modifies podClass
      ensures podClass.Valid()
      ensures unchanged(registry.Bags())
      ensures registry.Find(self).None? ==>
        r == Failure(NotFoundMessage(registry.className)) && podClass.objects == old(podClass.objects)
      ensures registry.Find(self).Some? && !arg.Fixnum? ==>
        r == Failure(NotIntegerMessage) && podClass.objects == old(podClass.objects)
      ensures registry.Find(self).Some? && arg.Fixnum? && SelectIndex(arg.n, |Items(self)|).None? ==>
        r == Success(Nil) && podClass.objects == old(podClass.objects)
      ensures registry.Find(self).Some? && arg.Fixnum? && SelectIndex(arg.n, |Items(self)|).Some? ==>
        Spawned(podClass, Items(self)[SelectIndex(arg.n, |Items(self)|).value], made, r)
    {
      var found := registry.LookupVars(self);
      if found.Failure? {
        return Failure(found.error);
      }
      var pods := found.value.value;
      if !arg.Fixnum? {
        return Failure(NotIntegerMessage);
      }
      var n := arg.n;
      var l := |pods|;
      var pod: Pod;
      if n >= l {
        return Success(Nil);
      }
      if n >= 0 {
        pod := pods[n];
      } else if -(l - 1) <= n && n < 0 {
        pod := pods[l + n];
      } else {
        return Success(Nil);
      }
      r := SpawnPod(pod, made);
    }

    /** `first`: the first held pod as a new `Pod` object; null when none is held. */
    method First(self: Handle, made: Result<Handle>) returns (r: Result<Value>)
      requires podClass.Valid()
      modifies podClass
      ensures podClass.Valid()
      ensures unchanged(registry.Bags())
      ensures registry.Find(self).None? ==>
        r == Failure(NotFoundMessage(registry.className)) && podClass.objects == old(podClass.objects)
      ensures registry.Find(self).Some? && Items(self) == [] ==>
        r == Success(Nil) && podClass.objects == old(podClass.objects)
      ensures registry.Find(self).Some? && Items(self) != [] ==>
        Spawned(podClass, Items(self)[0], made, r)
    {
      var found := registry.LookupVars(self);
      if found.Failure? {
        return Failure(found.error);
      }
      var pods := found.value.value;
      if |pods| > 0 {
        r := SpawnPod(pods[0], made);
        return;
      }
      r := Success(Nil);
    }

    /**
     * `any`: some held pod as a new `Pod` object; null when none is held.
     * The position is chosen at random in the source; here it is any
     * position in range.
     */
    method Any(self: Handle, made: Result<Handle>) returns (r: Result<Value>)
      requires podClass.Valid()
      modifies podClass
      ensures podClass.Valid()
      ensures unchanged(registry.Bags())
      ensures registry.Find(self).None? ==>
        r == Failure(NotFoundMessage(registry.className)) && podClass.objects == old(podClass.objects)
      ensures registry.Find(self).Some? && Items(self) == [] ==>
        r == Success(Nil) && podClass.objects == old(podClass.objects)
      ensures registry.Find(self).Some? && Items(self) != [] ==>
        exists k :: 0 <= k < |Items(self)| && Spawned(podClass, Items(self)[k], made, r)
    {
      var found := registry.LookupVars(self);
      if found.Failure? {
        return Failure(found.error);
      }
      var pods := found.value.value;
      var l := |pods|;
      if l > 0 {
        var k :| 0 <= k < l;
        r := SpawnPod(pods[k], made);
        return;
      }
      r := Success(Nil);
    }

    /** `last`: the last held pod as a new `Pod` object; null when none is held. */
    method Last(self: Handle, made: Result<Handle>) returns (r: Result<Value>)
      requires podClass.Valid()
      modifies podClass
      ensures podClass.Valid()
      ensures unchanged(registry.Bags())
      ensures registry.Find(self).None? ==>
        r == Failure(NotFoundMessage(registry.className)) && podClass.objects == old(podClass.objects)
      ensures registry.Find(self).Some? && Items(self) == [] ==>
        r == Success(Nil) && podClass.objects == old(podClass.objects)
      ensures registry.Find(self).Some? && Items(self) != [] ==>
        Spawned(podClass, Items(self)[|Items(self)| - 1], made, r)
    {
      var found := registry.LookupVars(self);
      if found.Failure? {
        return Failure(found.error);
      }
      var pods := found.value.value;
      var l := |pods|;
      if l > 0 {
        r := SpawnPod(pods[l - 1], made);
        return;
      }
      r := Success(Nil);
    }
  }
}
