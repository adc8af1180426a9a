/**
 * The gRPC server of server/server.go: construction with the error-format unit appended
 * last, `configure`'s defaults, `Serve`'s argument check and interceptor lists, and the
 * registration calls. The process environment read by the config package, the listener,
 * the tracer and the registry's own behaviour are parameters.
 */
module Server {
  import opened Base
  import opened Middleware
  import Reg = Register
  import opened ServerOptions

  /** What config.GetGRPCAddr, GetGRPCAdvertiseAddr, GetSvcID and GetSvcName return. */
  datatype Config = Config(grpcAddr: string, advertiseAddr: string, svcID: string, svcName: string)

  /** `configure`'s defaults after the options ran. */
  function WithDefaults(o: Options, cfg: Config): (r: Options)
    ensures o.address != "" ==> r.address == o.address
    ensures o.address == "" ==> r.address == cfg.grpcAddr
    ensures o.advertise != "" ==> r.advertise == o.advertise
    ensures o.advertise == "" ==> r.advertise == cfg.advertiseAddr
    ensures o.id != "" ==> r.id == o.id
    ensures o.id == "" ==> r.id == cfg.svcID
    ensures o.serviceName != "" ==> r.serviceName == o.serviceName
    ensures o.serviceName == "" ==> r.serviceName == cfg.svcName
    ensures o.writeBufSize > 0 ==> r.writeBufSize == o.writeBufSize
    ensures o.writeBufSize <= 0 ==> r.writeBufSize == DefaultWriteBufSize
    ensures o.readBufSize > 0 ==> r.readBufSize == o.readBufSize
    ensures o.readBufSize <= 0 ==> r.readBufSize == DefaultReadBufSize
    ensures r.reg.Some?
    ensures o.reg.Some? ==> r.reg == o.reg
    ensures o.reg.None? ==> r.reg == Some(Reg.EtcdServerRegistry)
    ensures r.middlewares == o.middlewares && r.metricsAddress == o.metricsAddress
  {
    Options(OrDefault(o.id, cfg.svcID), OrDefault(o.serviceName, cfg.svcName),
            OrDefault(o.address, cfg.grpcAddr), OrDefault(o.advertise, cfg.advertiseAddr),
            o.middlewares, if o.reg.None? then Some(Reg.EtcdServerRegistry) else o.reg,
            if o.writeBufSize <= 0 then DefaultWriteBufSize else o.writeBufSize,
            if o.readBufSize <= 0 then DefaultReadBufSize else o.readBufSize,
            o.metricsAddress)
  }

  /** A string option that falls back to the configuration value when empty. */
  function OrDefault(s: string, fallback: string): string
  {
    if s == "" then fallback else s
  }

  /** The second application of the defaults changes nothing. */
  lemma WithDefaultsIdempotent(o: Options, cfg: Config)
    ensures WithDefaults(WithDefaults(o, cfg), cfg) == WithDefaults(o, cfg)
  {
  }

  /** The options NewServer ends up with: the caller's options, the error-format unit, then the defaults. */
  function NewServerOptions(ops: seq<ServerOption>, cfg: Config): Options
  {
    WithDefaults(ApplyAll(ZeroOptions, ops + [Middleware([ErrorFormatUnit])]), cfg)
  }

  /** The units of the caller's Middleware options come first, in order, and the error-format unit is always the last one. */
  lemma ErrorFormatIsLast(ops: seq<ServerOption>, cfg: Config)
    ensures NewServerOptions(ops, cfg).middlewares == Collected(ops) + [ErrorFormatUnit]
    ensures var m := NewServerOptions(ops, cfg).middlewares;
            |m| > 0 && m[|m| - 1] == ErrorFormatUnit
  {
    var all := ops + [Middleware([ErrorFormatUnit])];
    MiddlewaresAccumulate(ZeroOptions, all);
    CollectedAppend(ops, [Middleware([ErrorFormatUnit])]);
    assert [Middleware([ErrorFormatUnit])][..0] == [];
  }

  /** The `v.StreamHandler` method value of a unit. */
  datatype StreamInterceptor = StreamHandlerOf(unit: Unit)

  /** The `v.UnaryHandler` method value of a unit. */
  datatype UnaryInterceptor = UnaryHandlerOf(unit: Unit)

  /** A `RegisterServer` callback of the application. */
  datatype RegisterServer = RegisterServer(id: nat)

  /** The `*grpc.Server` Serve creates: its chained interceptors, buffer sizes and the callbacks that registered services on it. */
  datatype GrpcServer = GrpcServer(
    stream: seq<StreamInterceptor>,
    unary: seq<UnaryInterceptor>,
    writeBufSize: int,
    readBufSize: int,
    services: seq<RegisterServer>)

  /** The registry's Register or UnRegister, applied to the node the server passes. */
  type RegistryCall = Reg.Node -> Option<Error>

  /** What one Serve call did: its error, where it listened, the server it built, the node it registered, and whether it served. */
  datatype ServeOutcome = ServeOutcome(
    err: Option<Error>,
    listenedOn: Option<string>,
    server: Option<GrpcServer>,
    registered: Option<Reg.Node>,
    served: bool)

  /** The error Serve returns when it is given no RegisterServer. */
  const NoRegisterServer := Other("At least one RegisterServer passed in")

  /** The two interceptor lists: one entry per unit, in the units' order. */
  method InterceptorLists(middlewares: seq<Unit>) returns (stream: seq<StreamInterceptor>, unary: seq<UnaryInterceptor>)
    ensures |stream| == |middlewares| && |unary| == |middlewares|
    ensures forall i :: 0 <= i < |middlewares| ==> stream[i] == StreamHandlerOf(middlewares[i])
    ensures forall i :: 0 <= i < |middlewares| ==> unary[i] == UnaryHandlerOf(middlewares[i])
  {
    stream := [];
    unary := [];
    var i := 0;
    while i < |middlewares|
      invariant 0 <= i <= |middlewares|
      invariant |stream| == i && |unary| == i
      invariant forall j :: 0 <= j < i ==> stream[j] == StreamHandlerOf(middlewares[j])
      invariant forall j :: 0 <= j < i ==> unary[j] == UnaryHandlerOf(middlewares[j])
    {
      stream := stream + [StreamHandlerOf(middlewares[i])];
      unary := unary + [UnaryHandlerOf(middlewares[i])];
      i := i + 1;
    }
  }

  /** `Server`: its options. */
  class Server {
    var opts: Options

    /** `NewServer`: zeroed options configured by the caller's options followed by the error-format unit; it never fails. */
    constructor NewServer(ops: seq<ServerOption>, cfg: Config)
      ensures opts == NewServerOptions(ops, cfg)
    {
      opts := ZeroOptions;
      new;
      Configure(ops + [Middleware([ErrorFormatUnit])], cfg);
    }

    /** `configure`: the options in order, then the defaults. */
    method Configure(ops: seq<ServerOption>, cfg: Config)
      modifies this
      ensures opts == WithDefaults(ApplyAll(old(opts), ops), cfg)
    {
      var i := 0;
      while i < |ops|
        invariant 0 <= i <= |ops|
        invariant opts == ApplyAll(old(opts), ops[..i])
      {
        assert ops[..i + 1][..i] == ops[..i];
        opts := Apply(opts, ops[i]);
        i := i + 1;
      }
      assert ops[..|ops|] == ops;
      FillDefaults(cfg);
    }

    /** The second half of `configure`: each empty or non-positive field from its default, and the etcd registry when none is set. */
    method FillDefaults(cfg: Config)
      modifies this
      ensures opts == WithDefaults(old(opts), cfg)
    {
      opts := opts.(address := OrDefault(opts.address, cfg.grpcAddr));
      opts := opts.(advertise := OrDefault(opts.advertise, cfg.advertiseAddr));
      opts := opts.(id := OrDefault(opts.id, cfg.svcID));
      opts := opts.(serviceName := OrDefault(opts.serviceName, cfg.svcName));
      if opts.writeBufSize <= 0 {
        opts := opts.(writeBufSize := DefaultWriteBufSize);
      }
      if opts.readBufSize <= 0 {
        opts := opts.(readBufSize := DefaultReadBufSize);
      }
      if opts.reg.None? {
        opts := opts.(reg := Some(Reg.EtcdServerRegistry));
      }
    }

    /** The node Register and UnRegister hand to the registry. */
    function NodeOf(): Reg.Node
      reads this
    {
      Reg.Node(opts.id, opts.address, opts.advertise, map[])
    }

    /** `Register`: the registry's answer for the node built from id, address and advertise, with no metadata. */
    function Register(reg: RegistryCall): (err: Option<Error>)
      reads this
      ensures err == reg(Reg.Node(opts.id, opts.address, opts.advertise, map[]))
    {
      reg(NodeOf())
    }

    /** `UnRegister`: closes the tracer if one was set, then the registry's answer for the same node Register passes. */
    function UnRegister(tracerSet: bool, unreg: RegistryCall): (r: Teardown)
      reads this
      ensures r.closedTracer == tracerSet
      ensures r.err == unreg(Reg.Node(opts.id, opts.address, opts.advertise, map[]))
    {
      Teardown(unreg(NodeOf()), tracerSet)
    }

    /** `Stop`: UnRegister's error, nil when it succeeded. */
    function Stop(tracerSet: bool, unreg: RegistryCall): (r: Teardown)
      reads this
      ensures r.closedTracer == tracerSet
      ensures r.err.None? <==> unreg(Reg.Node(opts.id, opts.address, opts.advertise, map[])).None?
      ensures r.err.Some? ==> r.err == unreg(Reg.Node(opts.id, opts.address, opts.advertise, map[]))
    {
      var t := UnRegister(tracerSet, unreg);
      if t.err.Some? then t else Teardown(None, t.closedTracer)
    }

    /** `Metrics`: the address the metrics endpoint listens on, if one is set. */
    function Metrics(): (addr: Option<string>)
      reads this
      ensures addr.Some? <==> opts.metricsAddress != ""
      ensures addr.Some? ==> addr.value == opts.metricsAddress
    {
      if opts.metricsAddress != "" then Some(opts.metricsAddress) else None
    }

    /**
     * `Serve`: refuses an empty RegisterServer list before listening; otherwise listens on
     * the address, builds a server whose stream and unary interceptor lists follow the
     * units one for one, lets every callback register its services, registers the node
     * and serves. `listenErr` is net.Listen's error and `serveErr` grpc.Server.Serve's.
     */
    method Serve(regServer: seq<RegisterServer>, listenErr: Option<Error>, reg: RegistryCall, serveErr: Option<Error>)
      returns (out: ServeOutcome)
      ensures |regServer| == 0 ==> out == ServeOutcome(Some(NoRegisterServer), None, None, None, false)
      ensures |regServer| > 0 ==> out.listenedOn == Some(opts.address)
      ensures |regServer| > 0 && listenErr.Some? ==>
                out.err == listenErr && out.server.None? && out.registered.None? && !out.served
      ensures |regServer| > 0 && listenErr.None? ==>
                && out.server.Some?
                && |out.server.value.stream| == |opts.middlewares|
                && |out.server.value.unary| == |opts.middlewares|
                && (forall i :: 0 <= i < |opts.middlewares| ==> out.server.value.stream[i] == StreamHandlerOf(opts.middlewares[i]))
                && (forall i :: 0 <= i < |opts.middlewares| ==> out.server.value.unary[i] == UnaryHandlerOf(opts.middlewares[i]))
                && out.server.value.writeBufSize == opts.writeBufSize
                && out.server.value.readBufSize == opts.readBufSize
                && out.server.value.services == regServer
                && out.registered == Some(Reg.Node(opts.id, opts.address, opts.advertise, map[]))
      ensures |regServer| > 0 && listenErr.None? ==>
                var regErr := reg(Reg.Node(opts.id, opts.address, opts.advertise, map[]));
                (regErr.Some? ==> out.err == regErr && !out.served)
                && (regErr.None? ==> out.err == serveErr && out.served)
    {
      if |regServer| == 0 {
        return ServeOutcome(Some(NoRegisterServer), None, None, None, false);
      }
      if listenErr.Some? {
        return ServeOutcome(listenErr, Some(opts.address), None, None, false);
      }
      var stream, unary := InterceptorLists(opts.middlewares);
      var server := GrpcServer(stream, unary, opts.writeBufSize, opts.readBufSize, regServer);
      var err := Register(reg);
      if err.Some? {
        return ServeOutcome(err, Some(opts.address), Some(server), Some(NodeOf()), false);
      }
      return ServeOutcome(serveErr, Some(opts.address), Some(server), Some(NodeOf()), true);
    }
  }

  /** What UnRegister and Stop return, together with whether the tracer was closed. */
  datatype Teardown = Teardown(err: Option<Error>, closedTracer: bool)

  /** The units NewDefaultServer installs ahead of the error-format unit. */
  const DefaultServerUnits := [ZapLoggerUnit, OpentracingUnit, PrometheusUnit, HystrixLimitterUnit("server")]

  /**
   * `NewDefaultServer`: when the Jaeger tracer cannot be created its error is returned;
   * otherwise the tracer closer is kept and the server is NewServer with the four default
   * units and the metrics endpoint ":19999". `tracerErr` is the tracer constructor's error.
   */
  method NewDefaultServer(cfg: Config, tracerErr: Option<Error>) returns (r: Result<Server>, tracerSet: bool)
    ensures tracerErr.Some? ==> r == Err(tracerErr.value) && !tracerSet
    ensures tracerErr.None? ==> r.Ok? && tracerSet && fresh(r.value)
    ensures r.Ok? ==> r.value.opts == NewServerOptions([Middleware(DefaultServerUnits), MetricsAddress(":19999")], cfg)
    ensures r.Ok? ==> r.value.opts.middlewares == DefaultServerUnits + [ErrorFormatUnit]
    ensures r.Ok? ==> r.value.opts.metricsAddress == ":19999" && r.value.opts.reg == Some(Reg.EtcdServerRegistry)
  {
    if tracerErr.Some? {
      return Err(tracerErr.value), false;
    }
    var ops := [Middleware(DefaultServerUnits), MetricsAddress(":19999")];
    var s := new Server.NewServer(ops, cfg);
    var all := ops + [Middleware([ErrorFormatUnit])];
    assert all[..|all| - 1] == ops;
    assert ops[..|ops| - 1] == [Middleware(DefaultServerUnits)];
    assert [Middleware(DefaultServerUnits)][..0] == [];
    assert ApplyAll(ZeroOptions, [Middleware(DefaultServerUnits)]) == ZeroOptions.(middlewares := DefaultServerUnits);
    assert ApplyAll(ZeroOptions, ops) == ZeroOptions.(middlewares := DefaultServerUnits, metricsAddress := ":19999");
    assert ApplyAll(ZeroOptions, all) == ZeroOptions.(middlewares := DefaultServerUnits + [ErrorFormatUnit], metricsAddress := ":19999");
    return Ok(s), true;
  }
}
