# rubykube binding layer, modelled in Dafny

rubykube lets an operator drive a Kubernetes cluster from small mruby
scripts. This project models the core of its binding layer:

- **the per-kind object registry** (`templates/basic/template.go`): a
  generic class template that pairs every script object with a host-owned
  state bag ("vars"), appends each pair to a list, and finds the bag again
  by scanning for the object's handle (`Template.Registry`);
- **the `Pods` collection class** (`resources_podsClass.go`): `get!`,
  `inspect`, `[]`, `count`, `first`, `any`, `last` and `Update`, over a
  `Pods` registry whose bags hold pod lists and a `Pod` registry whose bags
  hold single pods (`PodsClass.PodsClass`);
- **`new_app` marshalling** (`verbs.go`): validating a script hash and
  building a one-container pod spec, with the container name derived from
  the image reference (`Verbs`);
- **the host** (`rubykube.go`): the omission filter `keep`, the two
  registration loops, the logging hook around every verb, `Run` and
  `Close`, with the interpreter's garbage collector as a flag and the
  host's calls on the interpreter as a list of steps (`Host.RubyKube`).

The interpreter and the Kubernetes client are collaborators whose code is
not modelled. What they return enters each operation as a parameter: `made`
is the outcome of the interpreter's class constructor, `fetched` the outcome
of the remote pod list call, `args` the outcome of argument parsing (an
optional name filter, as a predicate on names), `loaded` the outcome of
loading a script, `render` the conversion of a script value to its display
string and `handler` the host function a script name is bound to.

The bag of a script object is a heap object (`Template.Vars`) shared by
reference between the registry record and the handler that created it, so
a handler that writes into a new object's bag, as the `Pod` accessors do,
is seen by every later lookup of that object. `Registry.Valid` states that
no two records share a bag.

Files: `wrappers.dfy` (Option, Result), `mruby.dfy` (handles, values,
arity contracts), `template.dfy`, `text.dfy` (decimal rendering and
`strings.Join`), `pods_class.dfy`, `verbs.dfy`, `rubykube.dfy`, and
`scenarios.dfy` (client methods that replay short scripts against the
contracts: three pods fetched then counted, indexed and inspected; a
foreign handle; two `new_app` hashes).

Behaviour of the code worth knowing:
- `get!` with a name filter appends the matching pods to those already held,
  so they accumulate across calls; without a filter it replaces them
  (`rubykube/resources_podsClass.go:34-41`).
- In `new_app` the keys are applied in iteration order, and whichever of
  `image` and `name` comes last decides the container name
  (`rubykube/verbs.go:75-81`).
- The error for a key other than `image` and `name` names the allowed keys,
  not the offending key (`rubykube/verbs.go:83`).
- Handles are not checked for uniqueness when recorded, and a lookup
  returns the first matching record
  (`rubykube/templates/basic/template.go:56-66`).
- `Run` and `Close` do not check whether the host is already closed
  (`rubykube/rubykube.go:89-102`).

## Model

| member | source | states |
|---|---|---|
| Template.FirstMatch | rubykube/templates/basic/template.go:60-66 | the position found is the first record whose handle matches; none means no record has that handle |
| Template.FirstMatchAppend | rubykube/templates/basic/template.go:56 | appending a record never changes what an existing handle finds; a new handle finds the appended record |
| Template.NotFoundMessage | rubykube/templates/basic/template.go:66 | the not-found error starts with the class name |
| Template.Registry.constructor | rubykube/templates/basic/template.go:27-31 | a new registry has no records and keeps its bags exclusive |
| Template.Registry.Find | rubykube/templates/basic/template.go:60-66 | a bag is found exactly when some record has the handle, and it is one of the registry's bags |
| Template.Registry.ObjectCount | rubykube/templates/basic/template.go:36-39 | `object_count` is the number of records |
| Template.Registry.New | rubykube/templates/basic/template.go:45-57 | on constructor failure the error is returned and the list is unchanged; otherwise exactly one record is appended with the new handle and a fresh zero-valued bag shared by no other record, earlier records and their lookups are unchanged, and, when no earlier record has the new handle, that handle now finds the new bag |
| Template.Registry.LookupVars | rubykube/templates/basic/template.go:60-67 | returns the bag of the first record with the handle, or the not-found error when no record has it |
| Text.NatToString | rubykube/resources_podsClass.go:55 | the decimal form of an index is a non-empty string of digits |
| Text.ParseNatToString | rubykube/resources_podsClass.go:55 | the decimal form reads back as the same index |
| Text.Join | rubykube/rubykube.go:80 | joining nothing gives the empty string; otherwise the result starts with the first part |
| Text.JoinEndsWithLast | rubykube/rubykube.go:80 | a join of at least one part ends with the last part |
| Text.JoinSnoc | rubykube/rubykube.go:80 | joining one more argument adds exactly the separator and that argument at the end |
| PodsClass.SelectIndex | rubykube/resources_podsClass.go:79-91 | `[]` selects exactly for `0 <= n < L` (position `n`) and `-(L-1) <= n < 0` (position `L+n`), always in range; every other index selects nothing |
| PodsClass.RubyArrayIndex | rubykube/resources_podsClass.go:79-91 | Ruby's own indexing rule, selecting exactly for `-L <= n < L`, as the reference `[]` is compared with |
| PodsClass.SelectFromEitherEnd | rubykube/resources_podsClass.go:85-88 | for `1 <= i < L`, `[](i)` and `[](i-L)` select the same position |
| PodsClass.SelectDiffersFromRubyOnlyAtMinusLength | rubykube/resources_podsClass.go:87-90 | `[]` agrees with Ruby's rule at every index except `-L` of a non-empty list, where it gives null |
| PodsClass.Matching | rubykube/resources_podsClass.go:34-40 | the filter never keeps more pods than were fetched |
| PodsClass.MatchingCounts | rubykube/resources_podsClass.go:34-40 | a pod whose name passes the filter is kept exactly as often as it was fetched; any other pod is not kept |
| PodsClass.MatchingMembers | rubykube/resources_podsClass.go:34-40 | the kept pods are exactly the fetched pods whose names pass the filter |
| PodsClass.MatchingConcat | rubykube/resources_podsClass.go:34-40 | filtering keeps the fetched order: filtering two runs one after the other gives the first run's matches followed by the second's |
| PodsClass.AppendMatching | rubykube/resources_podsClass.go:34-40 | the filter loop appends to the bag exactly the matching pods, in fetched order, after the pods already there |
| PodsClass.Line | rubykube/resources_podsClass.go:55 | an `inspect` line is the index in decimal, `": "`, the namespace, `/` and the name, with nothing else |
| PodsClass.PodsClass.GetBang | rubykube/resources_podsClass.go:17-44 | a foreign handle, a parse error or a fetch error fails with that error and leaves the pods untouched; otherwise returns self, and the pods become the fetched list without a filter, or the old pods followed by the matching fetched pods with one; no other object's bag changes |
| PodsClass.PodsClass.Update | rubykube/resources_podsClass.go:177-179 | refreshes exactly as `get!` with the same arguments |
| PodsClass.PodsClass.Inspect | rubykube/resources_podsClass.go:47-60 | one line `"<i>: <namespace>/<name>"` per held pod, in order; returns self; a foreign handle fails with no lines |
| PodsClass.PodsClass.Count | rubykube/resources_podsClass.go:103-113 | the number of held pods, or the not-found error |
| PodsClass.PodsClass.SpawnPod | rubykube/resources_podsClass.go:94-99 | the `Pod` registry grows by exactly one record holding the item and the new handle is returned, or nothing is recorded and the constructor's error is returned |
| PodsClass.PodsClass.At | rubykube/resources_podsClass.go:61-102 | a non-integer index fails with "Argument must be an integer"; an index `SelectIndex` rejects gives null and records nothing; otherwise a new `Pod` object holding the selected pod; the collection's own pods never change |
| PodsClass.PodsClass.First | rubykube/resources_podsClass.go:114-132 | null on an empty list; otherwise a new `Pod` object holding the first pod; the collection is unchanged |
| PodsClass.PodsClass.Any | rubykube/resources_podsClass.go:133-152 | null on an empty list; otherwise a new `Pod` object holding the pod at some position in range; the collection is unchanged |
| PodsClass.PodsClass.Last | rubykube/resources_podsClass.go:153-173 | null on an empty list; otherwise a new `Pod` object holding the last pod; the collection is unchanged |
| Verbs.LiveVerbTable | rubykube/verbs.go:45-47 | the live verbs are exactly `new_app` (one argument), `count_pods` and `pods` (none) |
| Verbs.NotStringMessage | rubykube/verbs.go:60-62 | the non-string error names the offending key |
| Verbs.PairError | rubykube/verbs.go:60-84 | a pair is accepted exactly when its value is a string and its key is `image` or `name`; a non-string value is rejected with the message naming its key, checked before the key; a string under any other key gets the allowed-keys message |
| Verbs.Apply | rubykube/verbs.go:59-86 | a pair fails exactly when it is rejected, with the rejection's message; an `image` pair sets the image and replaces the name with the one derived from it; a `name` pair sets the name and keeps the image |
| Verbs.PrefixBefore | rubykube/verbs.go:78 | the text before the first separator: a prefix with no separator, followed by the separator unless it is the whole text |
| Verbs.SuffixAfterLast | rubykube/verbs.go:78-79 | the text after the last separator: a suffix with no separator, preceded by the separator unless it is the whole text |
| Verbs.ImageName | rubykube/verbs.go:78-79 | the derived container name contains no `/` and no `:` |
| Verbs.ImageNameIsLastSegment | rubykube/verbs.go:78-79 | the derived name is the tail of the untagged part of the image, cut at a `/` or at its start |
| Verbs.PrefixBeforeFirst | rubykube/verbs.go:78 | splitting on `:` and taking the first part gives exactly the text before the first `:` |
| Verbs.SuffixAfterLastOf | rubykube/verbs.go:78-79 | the last `/`-separated part is exactly the text after the last `/` |
| Verbs.ImageNameOfTaggedPath | rubykube/verbs.go:76-79 | `"repo/foo:tag"` names its container `"foo"` |
| Verbs.ImageNameOfPlainName | rubykube/verbs.go:76-79 | an image reference with no `:` and no `/` names its container by itself |
| Verbs.MarshalStep | rubykube/verbs.go:59-86 | after a prefix that marshals, the next pair is applied to the container built so far |
| Verbs.MarshalSuccessGoodAt | rubykube/verbs.go:59-86 | in a hash that marshals, every pair has a string value and the key `image` or `name` |
| Verbs.MarshalFailureSticks | rubykube/verbs.go:59-90 | once a pair fails, the whole call fails with that message whatever follows |
| Verbs.MarshalGoodPrefix | rubykube/verbs.go:59-86 | pairs that are all string-valued with allowed keys always marshal |
| Verbs.MarshalFailsAtFirstBadPair | rubykube/verbs.go:59-90 | the first bad pair decides the error: a non-string value's message names its key, a disallowed key gives the allowed-keys message |
| Verbs.MarshalSucceedsIffAllGood | rubykube/verbs.go:59-90 | a hash marshals exactly when every value is a string and every key is `image` or `name` |
| Verbs.MarshalNameFromLastPair | rubykube/verbs.go:75-81 | the last pair decides `Name`: its value for `name`, the name derived from its image for `image`; an empty hash gives an empty container |
| Verbs.MarshalImageFromLastImagePair | rubykube/verbs.go:76-77 | `Image` is the value of the last `image` pair, verbatim |
| Verbs.MarshalImageWithoutImagePair | rubykube/verbs.go:57 | without an `image` pair, `Image` stays empty |
| Verbs.NewApp | rubykube/verbs.go:52-101 | fails with the marshalling error, building nothing, or returns a pod spec holding exactly the marshalled container |
| Host.Keep | rubykube/rubykube.go:23-30 | `keep` is false exactly when the name occurs in the omission list |
| Host.RegisteredNames | rubykube/rubykube.go:45-60 | the registered names are the verb and function names less the omitted ones |
| Host.RegisteredWithoutOmissions | rubykube/rubykube.go:45-60 | with nothing omitted, `new_app`, `count_pods`, `pods`, `import` and `getenv` are registered |
| Host.OmittedNeverRegistered | rubykube/rubykube.go:45-60 | no omitted name is registered |
| Host.Rendered | rubykube/rubykube.go:77-78 | one display string per argument, in order |
| Host.RubyKube.constructor | rubykube/rubykube.go:33-70 | GC is disabled first and every later step is a registration of a name not omitted; the callable names are exactly `RegisteredNames`, functions as unlogged entries and verbs as logged ones, each with its table's arity |
| Host.RubyKube.RegisterVerbs | rubykube/rubykube.go:45-49 | adds exactly the verbs not omitted, as logged entries, appending only registration steps |
| Host.RubyKube.RegisterFunctions | rubykube/rubykube.go:51-60 | adds exactly the functions not omitted, as unlogged entries, appending only registration steps |
| Host.RubyKube.DefineTopMethod | rubykube/rubykube.go:58 | defines one top-level method, replacing any earlier definition of the name |
| Host.RubyKube.AddVerb | rubykube/rubykube.go:75-86 | registers the name as a logged verb with its arity |
| Host.RubyKube.VerbHook | rubykube/rubykube.go:76-83 | logs the name with the comma-joined display strings of the arguments, then returns the handler's result for the same arguments unchanged, failure included |
| Host.RubyKube.Invoke | rubykube/rubykube.go:45-60 | an unregistered name fails and logs nothing; a function runs its handler unlogged; a verb runs through the hook |
| Host.RubyKube.Run | rubykube/rubykube.go:89-95 | the load error is returned as it is; otherwise the empty string |
| Host.RubyKube.Close | rubykube/rubykube.go:98-102 | GC enabled, then a full GC, then the interpreter closed, in that order |

## Left out

- The interpreter itself: class and method definition, arity enforcement,
  `GetArgs`, exception objects and real garbage collection. Handles are
  opaque values with equality; GC is a flag plus the list of host calls.
- `standardCheck`, `checkArgs`, `extractStringArgs`, `appendMethods`,
  `defineClass`, `call`, `resourceArgs`, `GetNamespace` and
  `iterateRubyHash` are not part of this model; their results enter as
  parameters (a hash enters as its pairs, keys already in string form).
- The Kubernetes client, kubeconfig and flag parsing, `signal.SetSignal`
  and the `panic` on configuration errors: process startup and a remote
  service.
- Regular-expression matching in `get!`: the filter is a predicate on names.
- Printing: `inspect` returns its lines instead of printing them, and
  `new_app` returns the pod spec it would print (the source returns null to
  the script).
- `funcs.go` (`import`, `getenv`): only their registration is modelled.
- The legacy `pods` verb class and `count_pods` in `verbs.go`: remote calls
  and printing over closure state, duplicating the templated class.
- Pod and container fields other than namespace, name and image.
- Verbs.NotStringMessage: the key is inserted verbatim, without Go's `%q`
  escaping of quotes and control characters.
- PodsClass.PodsClass.Any: the position is any position in range, not a
  uniformly random one.
- PodsClass.PodsClass.Update: the call goes through the interpreter in the
  source; here it calls `get!` directly, and a failure's message is not
  stated.
- Host.RubyKube.Invoke: the interpreter's own "undefined method" message is
  approximated.
