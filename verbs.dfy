/**
 * The live verb table and the `new_app` verb, which turns a script hash of
 * string keys and values into a pod spec holding one container.
 */
module Verbs {
  import opened Wrappers
  import opened Mruby

  /** The verbs registered at setup and their arity contracts. */
  const VerbJumpTable: map<string, ArgSpec> :=
    map["new_app" := ArgsReq(1), "count_pods" := ArgsReq(0), "pods" := ArgsReq(0)]

  /** Exactly three verbs are live: `new_app` with one argument, `count_pods` and `pods` with none. */
  lemma LiveVerbTable()
    ensures VerbJumpTable.Keys == {"new_app", "count_pods", "pods"}
    ensures VerbJumpTable["new_app"] == ArgsReq(1)
    ensures VerbJumpTable["count_pods"] == ArgsReq(0) && VerbJumpTable["pods"] == ArgsReq(0)
  {
  }

  datatype Container = Container(image: string, name: string)
  datatype PodSpec = PodSpec(containers: seq<Container>)

  const EmptyContainer: Container := Container("", "")

  const KeysMessage: string := "new_app only accepts :image and :name as keys"

  /** The error for a value that is not a string; it names the key (Go's `%q`, for plain keys). */
  function NotStringMessage(key: string): (m: string)
    ensures |m| > |key| + 15 && m[15..15 + |key|] == key
  {
    "Value for key \"" + key + "\" is not string, must be string"
  }

  /** The text of `s` before the first `c` (all of `s` when there is none). */
  function PrefixBefore(s: string, c: char): (r: string)
    ensures |r| <= |s| && r == s[..|r|]
    ensures c !in r
    ensures |r| < |s| ==> s[|r|] == c
  {
    if s == [] || s[0] == c then [] else [s[0]] + PrefixBefore(s[1..], c)
  }

  /** The text of `s` after the last `c` (all of `s` when there is none). */
  function SuffixAfterLast(s: string, c: char): (r: string)
    ensures |r| <= |s| && r == s[|s| - |r|..]
    ensures c !in r
    ensures |r| < |s| ==> s[|s| - |r| - 1] == c
  {
    if s == [] || s[|s| - 1] == c then [] else SuffixAfterLast(s[..|s| - 1], c) + [s[|s| - 1]]
  }

  /**
   * The container name `new_app` derives from an image reference: the last
   * `/`-separated segment of the text before the first `:`.
   */
  function ImageName(image: string): (r: string)
    ensures '/' !in r && ':' !in r
  {
    SuffixAfterLast(PrefixBefore(image, ':'), '/')
  }

  /** The derived name is a suffix of the image's untagged part, cut at a `/` or its start. */
  lemma ImageNameIsLastSegment(image: string)
    ensures var base := PrefixBefore(image, ':');
      var r := ImageName(image);
      && base == image[..|base|]
      && r == base[|base| - |r|..]
      && (|r| < |base| ==> base[|base| - |r| - 1] == '/')
  {
  }

  /** Cutting at the first `c` gives back exactly the text before it. */
  lemma {:induction false} PrefixBeforeFirst(a: string, c: char, b: string)
    requires c !in a
    ensures PrefixBefore(a + [c] + b, c) == a
  {
    if a != [] {
      assert (a + [c] + b)[1..] == a[1..] + [c] + b;
      PrefixBeforeFirst(a[1..], c, b);
    }
  }

  /** Cutting after the last `c` gives back exactly the text after it. */
  lemma {:induction false} SuffixAfterLastOf(a: string, c: char, b: string)
    requires c !in b
    ensures SuffixAfterLast(a + [c] + b, c) == b
  {
    if b != [] {
      assert (a + [c] + b)[..|a + [c] + b| - 1] == a + [c] + b[..|b| - 1];
      SuffixAfterLastOf(a, c, b[..|b| - 1]);
    }
  }

  /** A tagged reference with a repository path names its container by the last segment. */
  lemma ImageNameOfTaggedPath()
    ensures ImageName("repo/foo:tag") == "foo"
  {
    assert "repo/foo:tag" == "repo/foo" + [':'] + "tag";
    PrefixBeforeFirst("repo/foo", ':', "tag");
    assert "repo/foo" == "repo" + ['/'] + "foo";
    SuffixAfterLastOf("repo", '/', "foo");
  }

  /** A reference with no `:` and no `/` names its container by itself. */
  lemma ImageNameOfPlainName(image: string)
    requires ':' !in image && '/' !in image
    ensures ImageName(image) == image
  {
    assert PrefixBefore(image, ':') == image;
  }

  /** What is wrong with one key/value pair, checked in the source's order. */
  function PairError(key: string, value: Value): (r: Option<string>)
    ensures r.None? <==> value.Str? && (key == "image" || key == "name")
    ensures !value.Str? ==> r == Some(NotStringMessage(key))
    ensures value.Str? && r.Some? ==> r == Some(KeysMessage)
  {
    if !value.Str? then Some(NotStringMessage(key))
    else if key != "image" && key != "name" then Some(KeysMessage)
    else None
  }

  /** One pair applied to the container being built. */
  function Apply(c: Container, key: string, value: Value): (r: Result<Container>)
    ensures r.Failure? <==> PairError(key, value).Some?
    ensures r.Failure? ==> r.error == PairError(key, value).value
    ensures value.Str? && key == "image" ==> r == Success(Container(value.s, ImageName(value.s)))
    ensures value.Str? && key == "name" ==> r == Success(Container(c.image, value.s))
  {
    match PairError(key, value)
    case Some(e) => Failure(e)
    case None =>
      if key == "image" then Success(Container(value.s, ImageName(value.s)))
      else Success(c.(name := value.s))
  }

  /** The container built from the hash's pairs, in iteration order; the first bad pair fails it. */
  function Marshal(pairs: seq<(string, Value)>): Result<Container>
  {
    if pairs == [] then Success(EmptyContainer)
    else
      var init := pairs[..|pairs| - 1];
      match Marshal(init)
      case Failure(e) => Failure(e)
      case Success(c) => Apply(c, pairs[|pairs| - 1].0, pairs[|pairs| - 1].1)
  }

  /** One more pair extends a successful prefix by applying that pair. */
  lemma {:induction false} MarshalStep(pairs: seq<(string, Value)>, i: nat, c: Container)
    requires i < |pairs| && Marshal(pairs[..i]) == Success(c)
    ensures Marshal(pairs[..i + 1]) == Apply(c, pairs[i].0, pairs[i].1)
  {
    assert pairs[..i + 1][..i] == pairs[..i];
  }

  /** Once a prefix has failed, the whole hash fails with the same message. */
  lemma {:induction false} MarshalFailureSticks(pairs: seq<(string, Value)>, k: nat, e: string)
    requires k <= |pairs| && Marshal(pairs[..k]) == Failure(e)
    ensures Marshal(pairs) == Failure(e)
    decreases |pairs| - k
  {
    if k < |pairs| {
      assert pairs[..k + 1][..k] == pairs[..k];
      MarshalFailureSticks(pairs, k + 1, e);
    } else {
      assert pairs[..k] == pairs;
    }
  }

  /** A prefix of good pairs always marshals. */
  lemma {:induction false} MarshalGoodPrefix(pairs: seq<(string, Value)>)
    requires forall j :: 0 <= j < |pairs| ==> PairError(pairs[j].0, pairs[j].1).None?
    ensures Marshal(pairs).Success?
  {
    if pairs != [] {
      MarshalGoodPrefix(pairs[..|pairs| - 1]);
    }
  }

  /**
   * The first bad pair decides the outcome: a non-string value fails naming
   * its key, a key other than `image` or `name` fails with the key message,
   * whatever follows.
   */
  lemma {:induction false} MarshalFailsAtFirstBadPair(pairs: seq<(string, Value)>, i: nat)
    requires i < |pairs|
    requires forall j :: 0 <= j < i ==> PairError(pairs[j].0, pairs[j].1).None?
    requires PairError(pairs[i].0, pairs[i].1).Some?
    ensures Marshal(pairs) == Failure(PairError(pairs[i].0, pairs[i].1).value)
  {
    var prefix := pairs[..i];
    assert forall j :: 0 <= j < |prefix| ==> prefix[j] == pairs[j];
    MarshalGoodPrefix(prefix);
    assert pairs[..i + 1][..i] == prefix;
    MarshalFailureSticks(pairs, i + 1, PairError(pairs[i].0, pairs[i].1).value);
  }

  /** A hash that marshals has a prefix that marshals and a good last pair. */
  lemma MarshalLastGood(pairs: seq<(string, Value)>)
    requires pairs != [] && Marshal(pairs).Success?
    ensures Marshal(pairs[..|pairs| - 1]).Success?
    ensures PairError(pairs[|pairs| - 1].0, pairs[|pairs| - 1].1).None?
  {
  }

  /** In a hash that marshals, the pair at `j` is good. */
  lemma {:induction false} MarshalSuccessGoodAt(pairs: seq<(string, Value)>, j: nat)
    requires Marshal(pairs).Success? && j < |pairs|
    ensures PairError(pairs[j].0, pairs[j].1).None?
    decreases |pairs|
  {
    MarshalLastGood(pairs);
    if j < |pairs| - 1 {
      var init := pairs[..|pairs| - 1];
      MarshalSuccessGoodAt(init, j);
      assert init[j] == pairs[j];
    }
  }

  /** The hash marshals exactly when every pair is good. */
  lemma MarshalSucceedsIffAllGood(pairs: seq<(string, Value)>)
    ensures Marshal(pairs).Success? <==>
      forall j :: 0 <= j < |pairs| ==> PairError(pairs[j].0, pairs[j].1).None?
  {
    if Marshal(pairs).Success? {
      forall j | 0 <= j < |pairs|
        ensures PairError(pairs[j].0, pairs[j].1).None?
      {
        MarshalSuccessGoodAt(pairs, j);
      }
    } else if forall j :: 0 <= j < |pairs| ==> PairError(pairs[j].0, pairs[j].1).None? {
      MarshalGoodPrefix(pairs);
    }
  }

  /** `i` is the position of the last `image` pair. */
  predicate LastImagePair(pairs: seq<(string, Value)>, i: nat)
  {
    i < |pairs| && pairs[i].0 == "image" &&
    forall j :: i < j < |pairs| ==> pairs[j].0 != "image"
  }

  /**
   * On success `Name` is decided by the last pair alone: its value for a
   * `name` key, the name derived from the image for an `image` key.
   */
  lemma MarshalNameFromLastPair(pairs: seq<(string, Value)>)
    requires Marshal(pairs).Success?
    ensures pairs == [] ==> Marshal(pairs).value == EmptyContainer
    ensures pairs != [] && pairs[|pairs| - 1].0 == "name" ==>
      pairs[|pairs| - 1].1 == Str(Marshal(pairs).value.name)
    ensures pairs != [] && pairs[|pairs| - 1].0 == "image" ==>
      pairs[|pairs| - 1].1 == Str(Marshal(pairs).value.image) &&
      Marshal(pairs).value.name == ImageName(Marshal(pairs).value.image)
  {
  }

  /** On success `Image` is the value of the last `image` pair. */
  lemma {:induction false} MarshalImageFromLastImagePair(pairs: seq<(string, Value)>, i: nat)
    requires Marshal(pairs).Success? && LastImagePair(pairs, i)
    ensures pairs[i].1 == Str(Marshal(pairs).value.image)
  {
    var init := pairs[..|pairs| - 1];
    assert Marshal(init).Success?;
    if i < |pairs| - 1 {
      assert init[i] == pairs[i];
      assert LastImagePair(init, i);
      MarshalImageFromLastImagePair(init, i);
    }
  }

  /** On success without any `image` pair, `Image` stays empty. */
  lemma {:induction false} MarshalImageWithoutImagePair(pairs: seq<(string, Value)>)
    requires Marshal(pairs).Success?
    requires forall j :: 0 <= j < |pairs| ==> pairs[j].0 != "image"
    ensures Marshal(pairs).value.image == ""
  {
    if pairs != [] {
      var init := pairs[..|pairs| - 1];
      assert Marshal(init).Success?;
      assert forall j :: 0 <= j < |init| ==> init[j] == pairs[j];
      MarshalImageWithoutImagePair(init);
    }
  }

  /**
   * `new_app`: walks the hash's pairs in iteration order, filling one
   * container field by field, and on success builds a pod spec holding that
   * container alone. The first bad pair stops the walk and fails the call.
   */
  method NewApp(hash: seq<(string, Value)>) returns (r: Result<PodSpec>)
    ensures Marshal(hash).Failure? ==> r == Failure(Marshal(hash).error)
    ensures Marshal(hash).Success? ==> r == Success(PodSpec([Marshal(hash).value]))
  {
    var container := EmptyContainer;
    var i := 0;
    while i < |hash|
      invariant 0 <= i <= |hash|
      invariant Marshal(hash[..i]) == Success(container)
    {
      var (key, value) := hash[i];
      MarshalStep(hash, i, container);
      ghost var next := Apply(container, key, value);
      if !value.Str? {
        assert next == Failure(NotStringMessage(key));
        MarshalFailureSticks(hash, i + 1, NotStringMessage(key));
        return Failure(NotStringMessage(key));
      }
      if key == "image" {
        container := container.(image := value.s);
        container := container.(name := ImageName(container.image));
        assert next == Success(container);
      } else if key == "name" {
        container := container.(name := value.s);
        assert next == Success(container);
      } else {
        assert next == Failure(KeysMessage);
        MarshalFailureSticks(hash, i + 1, KeysMessage);
        return Failure(KeysMessage);
      }
      i := i + 1;
    }
    assert hash[..i] == hash;
    r := Success(PodSpec([container]));
  }
}
