/**
 * The no-op registry of plugins/register/noregister/noregister.go, for services that are
 * not published to a registry: every operation succeeds without doing anything.
 */
module NoRegister {
  import opened Base
  import opened Register

  /** `NoRegister`: only the (possibly nil) options pointer. */
  datatype NoRegister = NoRegister(options: Option<RegisterOptions>)
  {
    /** `Register`: nil for every node, nil included. */
    function Register(n: Option<Node>): (err: Option<Error>)
      ensures err.None?
    {
      None
    }

    /** `UnRegister`: nil for every node. */
    function UnRegister(n: Option<Node>): (err: Option<Error>)
      ensures err.None?
    {
      None
    }

    /** `GetResolver`: the receiver. */
    function GetResolver(): (r: NoRegister)
      ensures r == this
    {
      this
    }

    /** `GetBuilder`: the receiver. */
    function GetBuilder(): (r: NoRegister)
      ensures r == this
    {
      this
    }

    /** `Build`: the receiver and a nil error, whatever target and ClientConn are passed. */
    function Build(target: string, cc: Handle): (r: (NoRegister, Option<Error>))
      ensures r.0 == this && r.1.None?
    {
      (this, None)
    }

    /** `Scheme`: reads the options through the pointer, so they must be set. */
    function Scheme(): (s: string)
      requires options.Some?
      ensures s != ""
      ensures options.value.schema == "" ==> s == "default"
      ensures options.value.schema != "" ==> s == options.value.schema
    {
      SchemeOf(options.value.schema)
    }
  }

  /** `NewRegistry`: the options passed are dropped and the options pointer stays nil. */
  function NewRegistry(ops: seq<RegisterOption>): (r: NoRegister)
    ensures r.options.None?
  {
    NoRegister(None)
  }
}
