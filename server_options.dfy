/**
 * The options of the gRPC server, server/options.go: the buffer-size defaults and the
 * option closures. `Middleware` appends to the units collected so far; every other
 * closure assigns one field.
 */
module ServerOptions {
  import opened Base
  import opened Middleware
  import Reg = Register

  /** 128 KiB read and write buffers. */
  const DefaultWriteBufSize := 128 * 1024
  const DefaultReadBufSize := 128 * 1024

  /**
   * server.Options. A nil middleware slice and an empty one behave alike everywhere they
   * are read, so both are the empty sequence; `reg` is None while no registry is set.
   */
  datatype Options = Options(
    id: string,
    serviceName: string,
    address: string,
    advertise: string,
    middlewares: seq<Unit>,
    reg: Option<Reg.RegistryRef>,
    writeBufSize: int,
    readBufSize: int,
    metricsAddress: string)

  /** `new(Options)`. */
  const ZeroOptions := Options("", "", "", "", [], None, 0, 0, "")

  /** An option closure, identified by its arguments. */
  datatype ServerOption =
    | Address(address: string)
    | Advertise(advertise: string)
    | Middleware(units: seq<Unit>)
    | Register(reg: Option<Reg.RegistryRef>)
    | ID(id: string)
    | ServiceName(serviceName: string)
    | WriteBufSize(writeBufSize: int)
    | ReadBufSize(readBufSize: int)
    | MetricsAddress(metricsAddress: string)

  /** Runs one option closure. */
  function Apply(o: Options, opt: ServerOption): Options
  {
    match opt
    case Address(a) => o.(address := a)
    case Advertise(a) => o.(advertise := a)
    case Middleware(units) => o.(middlewares := o.middlewares + units)
    case Register(r) => o.(reg := r)
    case ID(id) => o.(id := id)
    case ServiceName(n) => o.(serviceName := n)
    case WriteBufSize(n) => o.(writeBufSize := n)
    case ReadBufSize(n) => o.(readBufSize := n)
    case MetricsAddress(a) => o.(metricsAddress := a)
  }

  /** Runs the closures in order. */
  function ApplyAll(o: Options, ops: seq<ServerOption>): Options
  {
    if ops == [] then o else Apply(ApplyAll(o, ops[..|ops| - 1]), ops[|ops| - 1])
  }

  /** The units of every Middleware option, in option order and argument order. */
  function Collected(ops: seq<ServerOption>): seq<Unit>
  {
    if ops == [] then []
    else
      var last := ops[|ops| - 1];
      Collected(ops[..|ops| - 1]) + (if last.Middleware? then last.units else [])
  }

  /** Repeated Middleware options accumulate: the units already held come first, then those of each option in turn. */
  lemma {:induction false} MiddlewaresAccumulate(o: Options, ops: seq<ServerOption>)
    ensures ApplyAll(o, ops).middlewares == o.middlewares + Collected(ops)
  {
    if ops != [] {
      var front := ops[..|ops| - 1];
      MiddlewaresAccumulate(o, front);
      var last := ops[|ops| - 1];
      if last.Middleware? {
        assert ApplyAll(o, ops).middlewares == ApplyAll(o, front).middlewares + last.units;
      }
    }
  }

  /** Collected distributes over concatenation of option lists. */
  lemma {:induction false} CollectedAppend(ops: seq<ServerOption>, more: seq<ServerOption>)
    ensures Collected(ops + more) == Collected(ops) + Collected(more)
    decreases |more|
  {
    if more == [] {
      assert ops + more == ops;
    } else {
      var all := ops + more;
      assert all[..|all| - 1] == ops + more[..|more| - 1];
      CollectedAppend(ops, more[..|more| - 1]);
    }
  }

  /** A first Middleware option on the zeroed options holds exactly its own units. */
  lemma MiddlewareOnNilStartsEmpty(units: seq<Unit>)
    ensures Apply(ZeroOptions, Middleware(units)).middlewares == units
  {
  }

  /** Every option other than Middleware stores its argument in its own field and changes nothing else. */
  lemma SettersAssignOneField(o: Options, s: string, r: Option<Reg.RegistryRef>, n: int)
    ensures Apply(o, Address(s)) == o.(address := s)
    ensures Apply(o, Advertise(s)) == o.(advertise := s)
    ensures Apply(o, Register(r)) == o.(reg := r)
    ensures Apply(o, ID(s)) == o.(id := s)
    ensures Apply(o, ServiceName(s)) == o.(serviceName := s)
    ensures Apply(o, WriteBufSize(n)) == o.(writeBufSize := n)
    ensures Apply(o, ReadBufSize(n)) == o.(readBufSize := n)
    ensures Apply(o, MetricsAddress(s)) == o.(metricsAddress := s)
  {
  }
}
