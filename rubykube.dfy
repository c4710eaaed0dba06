/**
 * The interpreter host: setup registers the verb and function tables
 * (less the omitted names) with reclamation switched off, every verb call
 * is logged before it is dispatched, and teardown switches reclamation
 * back on, forces one full pass and closes the interpreter.
 */
module Host {
  import opened Wrappers
  import opened Mruby
  import opened Text
  import opened Verbs

  /** The global functions' table; their bodies are not part of this model. */
  const FuncJumpTable: map<string, ArgSpec> :=
    map["import" := ArgsReq(1), "getenv" := ArgsReq(1)]

  /** Whether setup registers `name`: it does unless `name` is omitted. */
  function Keep(omit: seq<string>, name: string): (r: bool)
    ensures r <==> name !in omit
  {
    if omit == [] then true
    else if name == omit[0] then false
    else Keep(omit[1..], name)
  }

  /** The names scripts can call after setup with omission list `omit`. */
  function RegisteredNames(omit: seq<string>): (r: set<string>)
    ensures forall n :: n in r <==> (n in VerbJumpTable || n in FuncJumpTable) && n !in omit
  {
    set n | n in VerbJumpTable.Keys + FuncJumpTable.Keys && Keep(omit, n)
  }

  /** With nothing omitted, the three live verbs and the two functions are registered. */
  lemma RegisteredWithoutOmissions()
    ensures RegisteredNames([]) == {"new_app", "count_pods", "pods", "import", "getenv"}
  {
  }

  /** An omitted name is never registered, whichever table it comes from. */
  lemma OmittedNeverRegistered(omit: seq<string>, i: nat)
    requires i < |omit|
    ensures omit[i] !in RegisteredNames(omit)
  {
  }

  datatype Category = Verb | Function

  /** A top-level method as registered: logged verb or plain function, and its arity. */
  datatype Entry = Entry(category: Category, spec: ArgSpec)

  /** The calls the host makes on the interpreter, in the order it makes them. */
  datatype Step =
    | DisableGC
    | EnableGC
    | FullGC
    | CloseInterpreter
    | DefineMethod(name: string, entry: Entry)
    | LoadString(script: string)

  /** The log event a verb call emits: its name and its joined arguments. */
  datatype LogEvent = BuildStep(name: string, args: string)

  /** The interpreter's error for a name no method is registered under. */
  function UndefinedMethodMessage(name: string): (m: string)
    ensures |m| > |name| && m[|m| - |name| - 1..|m| - 1] == name
  {
    "undefined method '" + name + "'"
  }

  /** The display strings of the arguments, in order, under `render`. */
  function Rendered(args: seq<Value>, render: Value -> string): (r: seq<string>)
    ensures |r| == |args| && forall i :: 0 <= i < |args| ==> r[i] == render(args[i])
  {
    seq(|args|, i requires 0 <= i < |args| => render(args[i]))
  }

  class RubyKube {
    /** Every call made on the interpreter so far. */
    var steps: seq<Step>
    /** The top-level methods scripts can call. */
    var methods: map<string, Entry>
    /** Whether the interpreter's automatic reclamation is on. */
    var gcEnabled: bool
    /** The events verb calls have emitted. */
    var log: seq<LogEvent>

    /**
     * Reclamation was switched off before anything else, and it is on only
     * once teardown has switched it back on.
     */
    ghost predicate Valid()
      reads this
    {
      |steps| > 0 && steps[0] == DisableGC && (gcEnabled <==> EnableGC in steps)
    }

    /**
     * `NewRubyKube`: switches reclamation off, then registers every verb
     * and every function whose name is not omitted. The tables are walked
     * in no particular order, verbs first.
     */
    constructor (omit: seq<string>)
      ensures Valid() && !gcEnabled && log == []
      ensures steps[0] == DisableGC
      ensures forall i :: 1 <= i < |steps| ==> steps[i].DefineMethod? && steps[i].name !in omit
      ensures methods.Keys == RegisteredNames(omit)
      ensures forall n :: n in methods ==>
        methods[n] == if n in FuncJumpTable then Entry(Function, FuncJumpTable[n])
                      else Entry(Verb, VerbJumpTable[n])
    {
      steps := [DisableGC];
      gcEnabled := false;
      methods := map[];
      log := [];
      new;
      RegisterVerbs(omit);
      RegisterFunctions(omit);
    }

    /** The first registration loop: every verb not omitted becomes a logged verb. */
    method RegisterVerbs(omit: seq<string>)
      requires Valid()
      modifies this`steps, this`methods
      ensures Valid()
      ensures forall n :: n in methods <==> n in old(methods) || (n in VerbJumpTable && n !in omit)
      ensures forall n :: n in methods ==>
        methods[n] == if n in VerbJumpTable && n !in omit then Entry(Verb, VerbJumpTable[n]) else old(methods)[n]
      ensures |steps| >= |old(steps)| && steps[..|old(steps)|] == old(steps)
      ensures forall i :: |old(steps)| <= i < |steps| ==> steps[i].DefineMethod? && steps[i].name !in omit
    {
      var verbs := VerbJumpTable.Keys;
      while verbs != {}
        invariant Valid()
        invariant verbs <= VerbJumpTable.Keys
        invariant forall n :: n in methods <==>
          n in old(methods) || (n in VerbJumpTable && n !in verbs && n !in omit)
        invariant forall n :: n in methods ==>
          methods[n] == if n in VerbJumpTable && n !in verbs && n !in omit
                        then Entry(Verb, VerbJumpTable[n]) else old(methods)[n]
        invariant |steps| >= |old(steps)| && steps[..|old(steps)|] == old(steps)
        invariant forall i :: |old(steps)| <= i < |steps| ==> steps[i].DefineMethod? && steps[i].name !in omit
        decreases verbs
      {
        var name :| name in verbs;
        if Keep(omit, name) {
          AddVerb(name, VerbJumpTable[name]);
        }
        verbs := verbs - {name};
      }
    }

    /** The second registration loop: every function not omitted becomes an unlogged method. */
    method RegisterFunctions(omit: seq<string>)
      requires Valid()
      modifies this`steps, this`methods
      ensures Valid()
      ensures forall n :: n in methods <==> n in old(methods) || (n in FuncJumpTable && n !in omit)
      ensures forall n :: n in methods ==>
        methods[n] == if n in FuncJumpTable && n !in omit then Entry(Function, FuncJumpTable[n]) else old(methods)[n]
      ensures |steps| >= |old(steps)| && steps[..|old(steps)|] == old(steps)
      ensures forall i :: |old(steps)| <= i < |steps| ==> steps[i].DefineMethod? && steps[i].name !in omit
    {
      var funcs := FuncJumpTable.Keys;
      while funcs != {}
        invariant Valid()
        invariant funcs <= FuncJumpTable.Keys
        invariant forall n :: n in methods <==>
          n in old(methods) || (n in FuncJumpTable && n !in funcs && n !in omit)
        invariant forall n :: n in methods ==>
          methods[n] == if n in FuncJumpTable && n !in funcs && n !in omit
                        then Entry(Function, FuncJumpTable[n]) else old(methods)[n]
        invariant |steps| >= |old(steps)| && steps[..|old(steps)|] == old(steps)
        invariant forall i :: |old(steps)| <= i < |steps| ==> steps[i].DefineMethod? && steps[i].name !in omit
        decreases funcs
      {
        var name :| name in funcs;
        if Keep(omit, name) {
          DefineTopMethod(name, Entry(Function, FuncJumpTable[name]));
        }
        funcs := funcs - {name};
      }
    }

    /** Defines a top-level method; a second definition under a name replaces the first. */
    method DefineTopMethod(name: string, entry: Entry)
      requires Valid()
      modifies this`steps, this`methods
      ensures Valid()
      ensures methods == old(methods)[name := entry]
      ensures steps == old(steps) + [DefineMethod(name, entry)]
    {
      methods := methods[name := entry];
      steps := steps + [DefineMethod(name, entry)];
    }

    /** `AddVerb`: registers `name` as a logged verb with arity `spec`. */
    method AddVerb(name: string, spec: ArgSpec)
      requires Valid()
      modifies this`steps, this`methods
      ensures Valid()
      ensures methods == old(methods)[name := Entry(Verb, spec)]
      ensures steps == old(steps) + [DefineMethod(name, Entry(Verb, spec))]
    {
      DefineTopMethod(name, Entry(Verb, spec));
    }

    /**
     * The hook `AddVerb` installs around a verb's handler: it logs the name
     * with the arguments' display strings joined by ", ", then calls the
     * handler with the same arguments and returns what it returns, failure
     * included. `render` is the conversion of a value to its display string.
     */
    method VerbHook(name: string, args: seq<Value>, render: Value -> string,
                    handler: seq<Value> -> Result<Value>)
      returns (r: Result<Value>)
      modifies this`log
      ensures log == old(log) + [BuildStep(name, Join(Rendered(args, render), ", "))]
      ensures r == handler(args)
    {
      var shown := Rendered(args, render);
      log := log + [BuildStep(name, Join(shown, ", "))];
      r := handler(args);
    }

    /**
     * A script calling the top-level method `name`, whose host handler is
     * `handler`: unknown names fail, functions run unlogged, verbs run
     * through the logging hook.
     */
    method Invoke(name: string, args: seq<Value>, render: Value -> string,
                  handler: seq<Value> -> Result<Value>)
      returns (r: Result<Value>)
      modifies this`log
      ensures name !in methods ==> r == Failure(UndefinedMethodMessage(name)) && log == old(log)
      ensures name in methods && methods[name].category == Function ==>
        r == handler(args) && log == old(log)
      ensures name in methods && methods[name].category == Verb ==>
        r == handler(args) && log == old(log) + [BuildStep(name, Join(Rendered(args, render), ", "))]
    {
      if name !in methods {
        return Failure(UndefinedMethodMessage(name));
      }
      if methods[name].category == Function {
        return handler(args);
      }
      r := VerbHook(name, args, render, handler);
    }

    /**
     * `Run`: loads `script` into the session; `loaded` is the
     * interpreter's outcome. A load error is returned as it is; otherwise
     * the result is the empty string.
     */
    method Run(script: string, loaded: Result<Value>) returns (r: Result<Value>)
      requires Valid()
      modifies this`steps
      ensures Valid()
      ensures steps == old(steps) + [LoadString(script)]
      ensures loaded.Failure? ==> r == Failure(loaded.error)
      ensures loaded.Success? ==> r == Success(Str(""))
    {
      steps := steps + [LoadString(script)];
      if loaded.Failure? {
        return Failure(loaded.error);
      }
      r := Success(Str(""));
    }

    /** `Close`: reclamation on, one full pass, then the interpreter is closed. */
    method Close()
      requires Valid()
      modifies this`steps, this`gcEnabled
      ensures Valid() && gcEnabled
      ensures steps == old(steps) + [EnableGC, FullGC, CloseInterpreter]
    {
      gcEnabled := true;
      steps := steps + [EnableGC];
      steps := steps + [FullGC];
      steps := steps + [CloseInterpreter];
    }
  }
}
