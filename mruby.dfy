/**
 * The embedded interpreter as the binding layer sees it: opaque object
 * handles, the few script value kinds the handlers inspect, and the
 * argument-count contracts attached to registered methods.
 */
module Mruby {

  /** Identity of an interpreter object; equality is the interpreter's identity. */
  datatype Handle = Handle(id: nat)

  /** A script value, reduced to the kinds the handlers tell apart. */
  datatype Value =
    | Nil
    | Fixnum(n: int)
    | Str(s: string)
    | Obj(h: Handle)
    | Other

  /** The arity contract of a registered method (mruby's ArgSpec). */
  datatype ArgSpec =
    | ArgsNone
    | ArgsReq(required: nat)
    | ArgsReqOpt(required: nat, optional: nat)
}
