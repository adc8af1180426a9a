/**
 * The options of the gRPC client, client/options.go: the connection-timeout default and
 * the four option closures. Unlike the server's, the client's `Middleware` option replaces
 * the units held so far; each closure assigns one field.
 */
module ClientOptions {
  import opened Base
  import opened Middleware
  import Reg = Register

  /** time.Duration counts nanoseconds. */
  const Second := 1_000_000_000

  const DefaultConnTimeout := 5 * Second

  /** client.Options; nil and empty middleware slices are both the empty sequence, `reg` is None while unset. */
  datatype Options = Options(
    serviceName: string,
    middlewares: seq<Unit>,
    reg: Option<Reg.RegistryRef>,
    connTimeout: int)

  /** `new(Options)`. */
  const ZeroOptions := Options("", [], None, 0)

  /** An option closure, identified by its argument. */
  datatype ClientOption =
    | ServiceName(serviceName: string)
    | Middleware(units: seq<Unit>)
    | Register(reg: Option<Reg.RegistryRef>)
    | ConnTimeout(connTimeout: int)

  /** The fields of Options. */
  datatype Field = ServiceNameField | MiddlewaresField | RegField | ConnTimeoutField

  /** The field an option closure assigns. */
  function FieldOf(opt: ClientOption): Field
  {
    match opt
    case ServiceName(_) => ServiceNameField
    case Middleware(_) => MiddlewaresField
    case Register(_) => RegField
    case ConnTimeout(_) => ConnTimeoutField
  }

  /** The two option records hold the same value in field f. */
  predicate AgreeOn(a: Options, b: Options, f: Field)
  {
    match f
    case ServiceNameField => a.serviceName == b.serviceName
    case MiddlewaresField => a.middlewares == b.middlewares
    case RegField => a.reg == b.reg
    case ConnTimeoutField => a.connTimeout == b.connTimeout
  }

  /** Runs one option closure. */
  function Apply(o: Options, opt: ClientOption): Options
  {
    match opt
    case ServiceName(n) => o.(serviceName := n)
    case Middleware(units) => o.(middlewares := units)
    case Register(r) => o.(reg := r)
    case ConnTimeout(d) => o.(connTimeout := d)
  }

  /** Each closure stores its argument in its own field, whatever the field held, and leaves the other fields alone. */
  lemma ApplyAssignsOneField(o: Options, p: Options, opt: ClientOption)
    ensures AgreeOn(Apply(o, opt), Apply(p, opt), FieldOf(opt))
    ensures forall f :: f != FieldOf(opt) ==> AgreeOn(o, Apply(o, opt), f)
    ensures opt.Middleware? ==> Apply(o, opt).middlewares == opt.units
  {
  }

  /** Runs the closures in order. */
  function ApplyAll(o: Options, ops: seq<ClientOption>): Options
  {
    if ops == [] then o else Apply(ApplyAll(o, ops[..|ops| - 1]), ops[|ops| - 1])
  }

  /** Some closure in the list assigns field f. */
  predicate Touches(ops: seq<ClientOption>, f: Field)
  {
    exists i :: 0 <= i < |ops| && FieldOf(ops[i]) == f
  }

  /** A field some closure assigns ends up the same whatever the options started from. */
  lemma {:induction false} TouchedFieldForgetsStart(o: Options, p: Options, ops: seq<ClientOption>, f: Field)
    requires Touches(ops, f)
    ensures AgreeOn(ApplyAll(o, ops), ApplyAll(p, ops), f)
  {
    var front := ops[..|ops| - 1];
    var last := ops[|ops| - 1];
    ApplyAssignsOneField(ApplyAll(o, front), ApplyAll(p, front), last);
    if FieldOf(last) != f {
      var i :| 0 <= i < |ops| && FieldOf(ops[i]) == f;
      assert i < |front| && front[i] == ops[i];
      TouchedFieldForgetsStart(o, p, front, f);
      ApplyAssignsOneField(ApplyAll(p, front), ApplyAll(o, front), last);
    }
  }

  /** A field no closure assigns keeps its value. */
  lemma {:induction false} UntouchedFieldKept(o: Options, ops: seq<ClientOption>, f: Field)
    requires !Touches(ops, f)
    ensures AgreeOn(o, ApplyAll(o, ops), f)
  {
    if ops != [] {
      var front := ops[..|ops| - 1];
      assert !Touches(front, f) by {
        forall i | 0 <= i < |front|
          ensures FieldOf(front[i]) != f
        {
          assert front[i] == ops[i];
        }
      }
      UntouchedFieldKept(o, front, f);
      ApplyAssignsOneField(ApplyAll(o, front), ApplyAll(o, front), ops[|ops| - 1]);
    }
  }

  /** Middleware does not accumulate: the last Middleware option alone decides the units. */
  lemma {:induction false} LastMiddlewareWins(o: Options, before: seq<ClientOption>, units: seq<Unit>, after: seq<ClientOption>)
    requires forall i :: 0 <= i < |after| ==> !after[i].Middleware?
    ensures ApplyAll(o, before + [Middleware(units)] + after).middlewares == units
    decreases |after|
  {
    var ops := before + [Middleware(units)] + after;
    if after == [] {
      assert ops[..|ops| - 1] == before;
    } else {
      assert ops[..|ops| - 1] == before + [Middleware(units)] + after[..|after| - 1];
      LastMiddlewareWins(o, before, units, after[..|after| - 1]);
    }
  }
}
