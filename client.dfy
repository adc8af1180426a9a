/**
 * The gRPC client of client/client.go: construction with its service-name check,
 * `configure`'s defaults, the default middleware list, and `Dial`'s target and dial
 * options. The tracer, the name resolver and grpc.Dial are parameters.
 */
module Client {
  import opened Base
  import opened Middleware
  import Reg = Register
  import opened ClientOptions

  /** `configure`'s defaults after the options ran: a 5 s timeout if none is positive, and a client etcd registry for the service if none is set. */
  function WithDefaults(o: Options): (r: Options)
    ensures o.connTimeout > 0 ==> r.connTimeout == o.connTimeout
    ensures o.connTimeout <= 0 ==> r.connTimeout == DefaultConnTimeout
    ensures o.reg.Some? ==> r.reg == o.reg
    ensures o.reg.None? ==> r.reg == Some(Reg.EtcdClientRegistry(o.serviceName))
    ensures r.serviceName == o.serviceName && r.middlewares == o.middlewares
  {
    o.(connTimeout := if o.connTimeout <= 0 then DefaultConnTimeout else o.connTimeout,
       reg := if o.reg.None? then Some(Reg.EtcdClientRegistry(o.serviceName)) else o.reg)
  }

  /** One run of `configure` on options o. */
  function Configured(o: Options, ops: seq<ClientOption>): Options
  {
    WithDefaults(ApplyAll(o, ops))
  }

  /** Running `configure` again with the same options changes nothing. */
  lemma ReconfigureIsStable(o: Options, ops: seq<ClientOption>)
    ensures Configured(Configured(o, ops), ops) == Configured(o, ops)
  {
    var o1 := Configured(o, ops);
    var a := ApplyAll(o, ops);
    var b := ApplyAll(o1, ops);
    forall f | true
      ensures AgreeOn(a, b, f) || (!Touches(ops, f) && AgreeOn(o1, b, f))
    {
      if Touches(ops, f) {
        TouchedFieldForgetsStart(o, o1, ops, f);
      } else {
        UntouchedFieldKept(o1, ops, f);
      }
    }
    assert AgreeOn(a, b, ServiceNameField) || AgreeOn(o1, b, ServiceNameField);
    assert AgreeOn(a, b, MiddlewaresField) || AgreeOn(o1, b, MiddlewaresField);
    assert AgreeOn(a, b, RegField) || (!Touches(ops, RegField) && AgreeOn(o1, b, RegField));
    assert AgreeOn(a, b, ConnTimeoutField) || (!Touches(ops, ConnTimeoutField) && AgreeOn(o1, b, ConnTimeoutField));
  }

  /**
   * The second `configure` of NewDefaultClient, over the already configured options with
   * its own Middleware option added last, leaves everything as the first one set it except
   * the units, which are the defaults whatever Middleware the caller passed.
   */
  lemma DefaultsOverrideCallerMiddleware(ops: seq<ClientOption>, units: seq<Unit>)
    ensures Configured(Configured(ZeroOptions, ops), ops + [Middleware(units)])
            == Configured(ZeroOptions, ops).(middlewares := units)
  {
    var o1 := Configured(ZeroOptions, ops);
    var all := ops + [Middleware(units)];
    assert all[..|all| - 1] == ops;
    assert ApplyAll(o1, all) == ApplyAll(o1, ops).(middlewares := units);
    ReconfigureIsStable(ZeroOptions, ops);
  }

  /** The units NewDefaultClient installs, in order. */
  const DefaultClientUnits := [ZapLoggerUnit, OpentracingUnit, PrometheusUnit, HystrixLimitterUnit("client")]

  /** The error both constructors return when no service name is configured. */
  const ServiceNameRequired := Other("Service name must be set")

  /** A `grpc.DialOption`. */
  datatype DialOption =
    | WithBalancerName(name: string)
    | WithInsecure
    | WithTimeout(d: int)
    | WithUnaryInterceptor(units: seq<Unit>)
    | WithStreamInterceptor(units: seq<Unit>)

  /** The grpc.Dial call Dial makes. */
  datatype DialCall = DialCall(target: string, options: seq<DialOption>)

  /** A gRPC target's three parts. */
  datatype Target = Target(scheme: string, authority: string, endpoint: string)

  /** The target Dial passes: the resolver's scheme, authority "author", and the service name as endpoint. */
  function DialTarget(scheme: string, serviceName: string): string
  {
    scheme + "://author/" + serviceName
  }

  /** The index of the first c in s, if any. */
  function FirstIndexOf(s: string, c: char): (r: Option<nat>)
    ensures r.Some? ==> r.value < |s| && s[r.value] == c && c !in s[..r.value]
    ensures r.None? ==> c !in s
  {
    if s == [] then None
    else if s[0] == c then Some(0)
    else match FirstIndexOf(s[1..], c)
      case None => None
      case Some(i) =>
        assert s[..i + 1] == [s[0]] + s[1..][..i];
        Some(i + 1)
  }

  /** The index found is the one after a prefix that does not hold c. */
  lemma {:induction false} FirstIndexAfter(a: string, c: char, b: string)
    requires c !in a
    ensures FirstIndexOf(a + [c] + b, c) == Some(|a|)
  {
    if a != [] {
      assert (a + [c] + b)[1..] == a[1..] + [c] + b;
      FirstIndexAfter(a[1..], c, b);
    }
  }

  /**
   * The scheme://authority/endpoint reading of a target: split at the first ':' (which must
   * start "://") and the first '/' after it. grpc splits at the first "://" instead; the two
   * agree on targets whose scheme holds no ':', which DialTargetParses requires.
   */
  function ParseTarget(t: string): Option<Target>
  {
    match FirstIndexOf(t, ':')
    case None => None
    case Some(i) =>
      if |t| < i + 3 || t[i..i + 3] != "://" then None
      else
        var rest := t[i + 3..];
        match FirstIndexOf(rest, '/')
        case None => None
        case Some(j) => Some(Target(t[..i], rest[..j], rest[j + 1..]))
  }

  /** A string with "://" at i and a '/' at j past it is the four pieces around those separators. */
  lemma Reassemble(t: string, i: nat, j: nat)
    requires i + 3 <= |t| && t[i..i + 3] == "://"
    requires j < |t[i + 3..]| && t[i + 3..][j] == '/'
    ensures t == t[..i] + "://" + t[i + 3..][..j] + "/" + t[i + 3..][j + 1..]
  {
    var rest := t[i + 3..];
    assert t == t[..i] + t[i..i + 3] + rest;
    assert rest == rest[..j] + [rest[j]] + rest[j + 1..];
  }

  /** Whatever ParseTarget reads out of a target puts the target back together. */
  lemma ParseTargetSound(t: string)
    ensures ParseTarget(t).Some? ==>
              var p := ParseTarget(t).value;
              t == p.scheme + "://" + p.authority + "/" + p.endpoint
  {
    if ParseTarget(t).Some? {
      var i := FirstIndexOf(t, ':').value;
      var j := FirstIndexOf(t[i + 3..], '/').value;
      assert ParseTarget(t).value == Target(t[..i], t[i + 3..][..j], t[i + 3..][j + 1..]);
      Reassemble(t, i, j);
    }
  }

  /** The three pieces of a dial target, by position. */
  lemma DialTargetShape(scheme: string, serviceName: string)
    ensures var t := DialTarget(scheme, serviceName);
            && |t| >= |scheme| + 3
            && t[..|scheme|] == scheme
            && t[|scheme|..|scheme| + 3] == "://"
            && t[|scheme| + 3..] == "author/" + serviceName
  {
    var t := DialTarget(scheme, serviceName);
    assert t == scheme + ("://" + ("author/" + serviceName));
  }

  /** The authority part ends at the first '/', and the service name follows it. */
  lemma AuthoritySplit(serviceName: string)
    ensures var rest := "author/" + serviceName;
            && FirstIndexOf(rest, '/') == Some(6)
            && rest[..6] == "author"
            && rest[7..] == serviceName
  {
    var rest := "author/" + serviceName;
    assert rest == "author" + ['/'] + serviceName;
    FirstIndexAfter("author", '/', serviceName);
  }

  /** A scheme without ':' reads back from the target with authority "author" and the service name as endpoint. */
  lemma DialTargetParses(scheme: string, serviceName: string)
    requires ':' !in scheme
    ensures ParseTarget(DialTarget(scheme, serviceName)) == Some(Target(scheme, "author", serviceName))
  {
    var t := DialTarget(scheme, serviceName);
    assert t == scheme + [':'] + ("//author/" + serviceName);
    FirstIndexAfter(scheme, ':', "//author/" + serviceName);
    DialTargetShape(scheme, serviceName);
    AuthoritySplit(serviceName);
  }

  /** `Client`: its options, its connection and whether a tracer closer is held. */
  class Client {
    var opts: Options
    var conn: Option<Handle>
    var tracerSet: bool

    /** `&Client{opts: new(Options)}`. */
    constructor Init()
      ensures opts == ZeroOptions && conn.None? && !tracerSet
    {
      opts := ZeroOptions;
      conn := None;
      tracerSet := false;
    }

    /** `configure`: the options in order, then the defaults. */
    method Configure(ops: seq<ClientOption>)
      modifies this
      ensures opts == Configured(old(opts), ops)
      ensures conn == old(conn) && tracerSet == old(tracerSet)
    {
      var i := 0;
      while i < |ops|
        invariant 0 <= i <= |ops|
        invariant opts == ApplyAll(old(opts), ops[..i])
        invariant conn == old(conn) && tracerSet == old(tracerSet)
      {
        assert ops[..i + 1][..i] == ops[..i];
        opts := Apply(opts, ops[i]);
        i := i + 1;
      }
      assert ops[..|ops|] == ops;
      if opts.connTimeout <= 0 {
        opts := opts.(connTimeout := DefaultConnTimeout);
      }
      if opts.reg.None? {
        opts := opts.(reg := Some(Reg.EtcdClientRegistry(opts.serviceName)));
      }
    }

    /**
     * `Dial`: asks the registry for its resolver builder, dials the scheme's target for the
     * service with round-robin balancing, no transport security and the configured timeout,
     * and on success keeps the connection and hands it to every client constructor. No
     * interceptor is installed. `scheme` is the builder's Scheme(), `dialErr` grpc.Dial's error.
     */
    method Dial(clients: seq<GrpcClient>, scheme: string, dialErr: Option<Error>, newConn: Handle)
      returns (err: Option<Error>, builder: Reg.RegistryRef, call: DialCall, initialised: seq<GrpcClient>)
      requires opts.reg.Some?
      modifies this`conn
      ensures builder == opts.reg.value
      ensures call.target == DialTarget(scheme, opts.serviceName)
      ensures call.options == [WithBalancerName("round_robin"), WithInsecure, WithTimeout(opts.connTimeout)]
      ensures forall i :: 0 <= i < |call.options| ==> !call.options[i].WithUnaryInterceptor? && !call.options[i].WithStreamInterceptor?
      ensures err == dialErr
      ensures dialErr.Some? ==> conn == old(conn) && initialised == []
      ensures dialErr.None? ==> conn == Some(newConn) && initialised == clients
    {
      builder := opts.reg.value;
      call := DialCall(DialTarget(scheme, opts.serviceName), [WithBalancerName("round_robin"), WithInsecure, WithTimeout(opts.connTimeout)]);
      if dialErr.Some? {
        return dialErr, builder, call, [];
      }
      conn := Some(newConn);
      initialised := [];
      var i := 0;
      while i < |clients|
        invariant 0 <= i <= |clients|
        invariant initialised == clients[..i]
      {
        assert clients[..i + 1] == clients[..i] + [clients[i]];
        initialised := initialised + [clients[i]];
        i := i + 1;
      }
      assert clients[..|clients|] == clients;
      err := None;
    }
  }

  /** A `NewGrpcClient` callback of the application. */
  datatype GrpcClient = GrpcClient(id: nat)

  /** `NewClient`: zeroed options configured once; fails exactly when no service name is set. */
  method NewClient(ops: seq<ClientOption>) returns (r: Result<Client>)
    ensures r.Err? <==> Configured(ZeroOptions, ops).serviceName == ""
    ensures r.Err? ==> r.error == ServiceNameRequired
    ensures r.Ok? ==> fresh(r.value) && r.value.opts == Configured(ZeroOptions, ops)
                        && r.value.conn.None? && !r.value.tracerSet
  {
    var c := new Client.Init();
    c.Configure(ops);
    if c.opts.serviceName == "" {
      return Err(ServiceNameRequired);
    }
    return Ok(c);
  }

  /**
   * `NewDefaultClient`: configured once and checked as NewClient is; then the tracer is
   * created (its error is returned), and `configure` runs a second time with the four
   * default units added last, which replace any units the caller passed.
   */
  method NewDefaultClient(ops: seq<ClientOption>, tracerErr: Option<Error>) returns (r: Result<Client>)
    ensures Configured(ZeroOptions, ops).serviceName == "" ==> r == Err(ServiceNameRequired)
    ensures Configured(ZeroOptions, ops).serviceName != "" && tracerErr.Some? ==> r == Err(tracerErr.value)
    ensures Configured(ZeroOptions, ops).serviceName != "" && tracerErr.None? ==> r.Ok?
    ensures r.Ok? ==>
              && fresh(r.value)
              && r.value.opts == Configured(ZeroOptions, ops).(middlewares := DefaultClientUnits)
              && r.value.tracerSet && r.value.conn.None?
  {
    var c := new Client.Init();
    c.Configure(ops);
    if c.opts.serviceName == "" {
      return Err(ServiceNameRequired);
    }
    if tracerErr.Some? {
      return Err(tracerErr.value);
    }
    c.tracerSet := true;
    c.Configure(ops + [Middleware(DefaultClientUnits)]);
    DefaultsOverrideCallerMiddleware(ops, DefaultClientUnits);
    return Ok(c);
  }
}
