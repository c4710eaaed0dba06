/** Scripts a client could run, checked against the contracts alone. */
module Scenarios {
  import opened Wrappers
  import opened Mruby
  import opened Template
  import opened Text
  import opened PodsClass
  import opened Verbs

  /** A `Pods` object that has fetched the pods "a", "b" and "c" of namespace "ns". */
  method FetchThree() returns (c: PodsClass, self: Handle)
    ensures fresh(c) && fresh(c.registry) && fresh(c.podClass)
    ensures c.podClass.Valid() && c.podClass.objects == []
    ensures c.registry.Find(self).Some?
    ensures c.Items(self) == [Pod("ns", "a"), Pod("ns", "b"), Pod("ns", "c")]
  {
    var pods := new Registry<seq<Pod>>("Pods", []);
    var podClass := new Registry<Pod>("Pod", ZeroPod);
    c := new PodsClass(pods, podClass);
    self := Handle(1);
    var made := pods.New(Success(self));
    var fetched := c.GetBang(self, Success(None), Success([Pod("ns", "a"), Pod("ns", "b"), Pod("ns", "c")]));
  }

  /** Three fetched pods count three. */
  method CountThree() {
    var c, self := FetchThree();
    var n := c.Count(self);
    assert n == Success(Fixnum(3));
  }

  /** `[-1]` is a new `Pod` object holding "c"; `[3]` is null; a string index is refused. */
  method SelectThree() {
    var c, self := FetchThree();
    var last := c.At(self, Fixnum(-1), Success(Handle(2)));
    assert last == Success(Obj(Handle(2)));
    assert c.podClass.objects[0].vars.value == Pod("ns", "c");
    var none := c.At(self, Fixnum(3), Success(Handle(3)));
    assert none == Success(Nil) && |c.podClass.objects| == 1;
    var wrong := c.At(self, Str("0"), Success(Handle(3)));
    assert wrong == Failure(NotIntegerMessage);
  }

  /** `inspect` prints "0: ns/a" first, one line per pod. */
  method InspectThree() {
    var c, self := FetchThree();
    var shown, lines := c.Inspect(self);
    assert |lines| == 3 && lines[0] == Line(0, Pod("ns", "a"));
    assert NatToString(0) == "0";
    assert lines[0] == "0: ns/a";
  }

  /** A handle this registry never produced is reported, not dereferenced. */
  method ForeignHandle() {
    var pods := new Registry<seq<Pod>>("Pods", []);
    var made := pods.New(Success(Handle(1)));
    var found := pods.LookupVars(Handle(7));
    assert found == Failure(NotFoundMessage("Pods"));
  }

  /** `new_app` derives the container name from a tagged image reference. */
  method NewAppTaggedImage() {
    var pairs := [("image", Str("repo/foo:tag"))];
    assert pairs[..0] == [];
    ImageNameOfTaggedPath();
    assert Marshal(pairs) == Success(Container("repo/foo:tag", "foo"));
    var spec := NewApp(pairs);
    assert spec == Success(PodSpec([Container("repo/foo:tag", "foo")]));
  }

  /** `new_app` refuses a hash with a key other than `image` and `name`. */
  method NewAppUnknownKey() {
    var pairs := [("image", Str("x")), ("bogus", Str("y"))];
    assert PairError(pairs[0].0, pairs[0].1).None?;
    assert PairError(pairs[1].0, pairs[1].1) == Some(KeysMessage);
    MarshalFailsAtFirstBadPair(pairs, 1);
    var refused := NewApp(pairs);
    assert refused == Failure(KeysMessage);
  }
}
