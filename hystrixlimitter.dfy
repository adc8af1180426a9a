/**
 * The rate-limit and circuit-breaker unit, plugins/middleware/hystrixlimitter: construction
 * (validation and the server/client branch, hystrixlimitter.go), server-side admission
 * (limitter.go) and the client-side breaker wrapper (hystrix.go).
 *
 * A rate.Limiter is modelled by its token count: Allow admits and spends a token when one
 * is left. Refilling over time is not modelled. The breaker's decision for one call is an
 * input (Verdict).
 */
module HystrixLimitter {
  import opened Base
  import opened Middleware
  import opened HystrixOptions

  /** `rate.Limiter`: one token every `every` nanoseconds, at most `burst` stored; it starts full. */
  class RateLimiter {
    const every: int
    const burst: int
    var tokens: nat

    /** `rate.NewLimiter(rate.Every(every), burst)`. */
    constructor (every: int, burst: int)
      ensures this.every == every && this.burst == burst
      ensures tokens == if burst > 0 then burst else 0
    {
      this.every := every;
      this.burst := burst;
      tokens := if burst > 0 then burst else 0;
    }

    /** `Allow()`: true and one token spent when a token is left; false and nothing spent otherwise. */
    method Allow() returns (ok: bool)
      modifies this
      ensures ok <==> old(tokens) > 0
      ensures tokens == if ok then old(tokens) - 1 else old(tokens)
    {
      if tokens == 0 {
        return false;
      }
      tokens := tokens - 1;
      return true;
    }
  }

  /** `hystrix.CommandConfig`. */
  datatype CommandConfig = CommandConfig(timeout: int, maxConcurrentRequests: int, requestVolumeThreshold: int,
                                         errorPercentThreshold: int, sleepWindow: int)

  /** A `hystrix.ConfigureCommand(name, config)` call. */
  datatype Breaker = Breaker(name: string, config: CommandConfig)

  /** The token interval and burst of the unary and of the stream limiter. */
  datatype LimiterConfig = LimiterConfig(every: int, burst: int, streamEvery: int, streamBurst: int)

  /** What construction decides: the options after `configure`, the limiters, the breaker. */
  datatype Setup = Setup(options: Options, limiters: Option<LimiterConfig>, breaker: Option<Breaker>)

  /** The options `NewHystrixLimitter` ends up with. */
  function ConfiguredOptions(ops: seq<HystrixOption>): (o: Options)
    ensures Configured(o)
  {
    WithDefaults(ApplyAll(ZeroOptions, ops))
  }

  /**
   * `NewHystrixLimitter`'s decisions: no logger or no type aborts; "server" creates both
   * limiters from the configured intervals and bursts; "client" needs a service name and
   * configures a breaker under it; any other type creates neither.
   */
  function Plan(ops: seq<HystrixOption>): (r: Result<Setup>)
    ensures var o := ConfiguredOptions(ops);
            && (r.Ok? <==> o.logger.Some? && o.typ != "" && !(o.typ == "client" && o.serviceName == ""))
            && (r.Ok? ==> r.value.options == o)
            && (r.Ok? ==> (r.value.limiters.Some? <==> o.typ == "server"))
            && (r.Ok? && r.value.limiters.Some? ==>
                  r.value.limiters.value == LimiterConfig(o.limiter, o.limiterBurst, o.streamLimiter, o.streamLimiterBurst))
            && (r.Ok? ==> (r.value.breaker.Some? <==> o.typ == "client"))
            && (r.Ok? && r.value.breaker.Some? ==>
                  r.value.breaker.value == Breaker(o.serviceName, CommandConfig(o.timeout, o.maxConcurrentRequests,
                                                   o.requestVolumeThreshold, o.errorPercentThreshold, o.sleepWindow)))
  {
    var o := ConfiguredOptions(ops);
    if o.logger.None? then Err(Fatal("rate-limit middleware has no logger"))
    else if o.typ == "" then Err(Fatal("rate-limit middleware type not set, server or client"))
    else
      var limiters := if o.typ == TypeServer then Some(LimiterConfig(o.limiter, o.limiterBurst, o.streamLimiter, o.streamLimiterBurst)) else None;
      if o.typ == TypeClient then
        if o.serviceName == "" then Err(Fatal("service name must not be empty"))
        else Ok(Setup(o, limiters, Some(Breaker(o.serviceName, CommandConfig(o.timeout, o.maxConcurrentRequests,
                                                   o.requestVolumeThreshold, o.errorPercentThreshold, o.sleepWindow)))))
      else Ok(Setup(o, limiters, None))
  }

  /** A server unit built without limiter options gets 3ms intervals and bursts 100 and 3. */
  lemma ServerDefaults(logger: SugaredLogger)
    ensures var r := Plan([Type("server"), Logger(Some(logger))]);
            r.Ok? && r.value.limiters == Some(LimiterConfig(3 * Millisecond, 100, 3 * Millisecond, 3))
  {
    var ops := [Type("server"), Logger(Some(logger))];
    assert ops[..1] == [Type("server")];
    assert [Type("server")][..0] == [];
    assert ApplyAll(ZeroOptions, [Type("server")]) == ZeroOptions.(typ := "server");
    assert ApplyAll(ZeroOptions, ops) == ZeroOptions.(typ := "server", logger := Some(logger));
  }

  /** The unit: its options and, for a server unit, its limiters. */
  class HystrixLimitter {
    var options: Options
    var limiter: RateLimiter?
    var streamLimiter: RateLimiter?

    /** `&HystrixLimitter{Options: new(Options)}`. */
    constructor Init()
      ensures options == ZeroOptions && limiter == null && streamLimiter == null
    {
      options := ZeroOptions;
      limiter := null;
      streamLimiter := null;
    }

    /** `configure`: run the options in order, then fill in the defaults. */
    method Configure(ops: seq<HystrixOption>)
      modifies this
      ensures options == WithDefaults(ApplyAll(old(options), ops))
      ensures limiter == old(limiter) && streamLimiter == old(streamLimiter)
    {
      var i := 0;
      while i < |ops|
        invariant 0 <= i <= |ops|
        invariant options == ApplyAll(old(options), ops[..i])
        invariant limiter == old(limiter) && streamLimiter == old(streamLimiter)
      {
        assert ops[..i + 1][..i] == ops[..i];
        options := Apply(options, ops[i]);
        i := i + 1;
      }
      assert ops[..|ops|] == ops;
      options := options.(limiter := Clamp(options.limiter, DefaultLimiter));
      options := options.(limiterBurst := Clamp(options.limiterBurst, DefaultLimiterBurst));
      options := options.(streamLimiter := Clamp(options.streamLimiter, DefaultStreamLimiter));
      options := options.(streamLimiterBurst := Clamp(options.streamLimiterBurst, DefaultStreamLimiterBurst));
      options := options.(timeout := Clamp(options.timeout, DefaultTimeout));
      options := options.(maxConcurrentRequests := Clamp(options.maxConcurrentRequests, DefaultMaxConcurrent));
      options := options.(requestVolumeThreshold := Clamp(options.requestVolumeThreshold, DefaultVolumeThreshold));
      options := options.(errorPercentThreshold := Clamp(options.errorPercentThreshold, DefaultErrorPercentThreshold));
      options := options.(sleepWindow := Clamp(options.sleepWindow, DefaultSleepWindow));
    }

    /**
     * `UnaryHandler`: a filtered-out call goes to the handler and the limiter is not
     * consulted; otherwise the unary limiter decides: refused calls return (nil,
     * ErrLimitExceed) without invoking the handler, admitted calls return the handler's
     * result. The stream limiter is never touched.
     */
    method UnaryHandler(ctx: Ctx, req: Value, fullMethod: string, handler: UnaryHandler)
      returns (r: UnaryResult, invoked: bool)
      requires FilteredOut(options.filterOutFunc, ctx, fullMethod) || limiter != null
      modifies limiter
      ensures FilteredOut(options.filterOutFunc, ctx, fullMethod) ==>
                invoked && r == handler(ctx, req) && (limiter != null ==> limiter.tokens == old(limiter.tokens))
      ensures !FilteredOut(options.filterOutFunc, ctx, fullMethod) ==>
                && (invoked <==> old(limiter.tokens) > 0)
                && (invoked ==> r == handler(ctx, req) && limiter.tokens == old(limiter.tokens) - 1)
                && (!invoked ==> r == UnaryResult(Nil, Some(LimitExceed)) && limiter.tokens == old(limiter.tokens))
      ensures streamLimiter != limiter && streamLimiter != null ==> streamLimiter.tokens == old(streamLimiter.tokens)
    {
      if FilteredOut(options.filterOutFunc, ctx, fullMethod) {
        return handler(ctx, req), true;
      }
      var ok := limiter.Allow();
      if !ok {
        return UnaryResult(Nil, Some(LimitExceed)), false;
      }
      return handler(ctx, req), true;
    }

    /** `StreamHandler`: as UnaryHandler, with the stream limiter; the unary limiter is never touched. */
    method StreamHandler(srv: Value, stream: ServerStream, fullMethod: string, handler: StreamHandler)
      returns (err: Option<Error>, invoked: bool)
      requires FilteredOut(options.filterOutFunc, stream.ctx, fullMethod) || streamLimiter != null
      modifies streamLimiter
      ensures FilteredOut(options.filterOutFunc, stream.ctx, fullMethod) ==>
                invoked && err == handler(srv, stream) && (streamLimiter != null ==> streamLimiter.tokens == old(streamLimiter.tokens))
      ensures !FilteredOut(options.filterOutFunc, stream.ctx, fullMethod) ==>
                && (invoked <==> old(streamLimiter.tokens) > 0)
                && (invoked ==> err == handler(srv, stream) && streamLimiter.tokens == old(streamLimiter.tokens) - 1)
                && (!invoked ==> err == Some(LimitExceed) && streamLimiter.tokens == old(streamLimiter.tokens))
      ensures limiter != streamLimiter && limiter != null ==> limiter.tokens == old(limiter.tokens)
    {
      if FilteredOut(options.filterOutFunc, stream.ctx, fullMethod) {
        return handler(srv, stream), true;
      }
      var ok := streamLimiter.Allow();
      if !ok {
        return Some(LimitExceed), false;
      }
      return handler(srv, stream), true;
    }

    /**
     * `UnaryClient`: a filtered-out call goes to the invoker; otherwise `hystrix.Do` runs
     * the invoker under the breaker named by the service and its result is returned as it
     * is: what Do makes of the invoker's error when the command runs, and the breaker's
     * error, which the fallback hands back unchanged, when it is refused.
     */
    function UnaryClient(ctx: Ctx, fullMethod: string, req: Value, reply: Value, invoker: UnaryInvoker, verdict: Verdict): (r: ClientCall)
      reads this
      ensures FilteredOut(options.filterOutFunc, ctx, fullMethod) ==> r == ClientCall(invoker(ctx, fullMethod, req, reply), true)
      ensures !FilteredOut(options.filterOutFunc, ctx, fullMethod) && verdict.Run? ==>
                r == ClientCall(verdict.settle(invoker(ctx, fullMethod, req, reply)), true)
      ensures !FilteredOut(options.filterOutFunc, ctx, fullMethod) && verdict.Reject? ==>
                r == ClientCall(Some(verdict.err), false)
    {
      if FilteredOut(options.filterOutFunc, ctx, fullMethod) then ClientCall(invoker(ctx, fullMethod, req, reply), true)
      else match verdict
        case Run(settle) => ClientCall(settle(invoker(ctx, fullMethod, req, reply)), true)
        case Reject(e) => ClientCall(Some(e), false)
    }

    /** `StreamClient`: the streamer's (cs, err), unchanged, on both paths. */
    function StreamClient(ctx: Ctx, fullMethod: string, streamer: Streamer): (r: StreamResult)
      reads this
      ensures r == streamer(ctx, fullMethod)
    {
      if FilteredOut(options.filterOutFunc, ctx, fullMethod) then streamer(ctx, fullMethod)
      else streamer(ctx, fullMethod)
    }
  }

  /**
   * The breaker's decision for one call: run the command, with `settle` the error
   * hystrix.Do returns for the command's error (a timeout included, since the command has
   * then already started), or refuse it before it starts (open circuit, too many
   * concurrent calls) with an error.
   */
  datatype Verdict = Run(settle: Option<Error> -> Option<Error>) | Reject(err: Error)

  /** A client call's error and whether the invoker was called. */
  datatype ClientCall = ClientCall(err: Option<Error>, invoked: bool)

  /**
   * `NewHystrixLimitter`: a fresh unit configured by `ops`; construction fails exactly when
   * Plan does, a server unit gets two fresh full limiters, and the breaker configured is
   * Plan's.
   */
  method NewHystrixLimitter(ops: seq<HystrixOption>) returns (r: Result<HystrixLimitter>, breaker: Option<Breaker>)
    ensures r.Err? <==> Plan(ops).Err?
    ensures r.Ok? ==>
              var s := Plan(ops).value;
              && fresh(r.value)
              && r.value.options == s.options
              && breaker == s.breaker
              && (s.limiters.None? ==> r.value.limiter == null && r.value.streamLimiter == null)
              && (s.limiters.Some? ==>
                    && r.value.limiter != null && r.value.streamLimiter != null
                    && fresh(r.value.limiter) && fresh(r.value.streamLimiter)
                    && r.value.limiter != r.value.streamLimiter
                    && r.value.limiter.every == s.limiters.value.every && r.value.limiter.burst == s.limiters.value.burst
                    && r.value.streamLimiter.every == s.limiters.value.streamEvery
                    && r.value.streamLimiter.burst == s.limiters.value.streamBurst
                    && r.value.limiter.tokens == s.limiters.value.burst
                    && r.value.streamLimiter.tokens == s.limiters.value.streamBurst)
  {
    var hl := new HystrixLimitter.Init();
    hl.Configure(ops);
    var o := hl.options;
    if o.logger.None? {
      return Err(Fatal("rate-limit middleware has no logger")), None;
    }
    if o.typ == "" {
      return Err(Fatal("rate-limit middleware type not set, server or client")), None;
    }
    if o.typ == TypeServer {
      hl.limiter := new RateLimiter(o.limiter, o.limiterBurst);
      hl.streamLimiter := new RateLimiter(o.streamLimiter, o.streamLimiterBurst);
    }
    breaker := None;
    if o.typ == TypeClient {
      if o.serviceName == "" {
        return Err(Fatal("service name must not be empty")), None;
      }
      breaker := Some(Breaker(o.serviceName, CommandConfig(o.timeout, o.maxConcurrentRequests,
                                                          o.requestVolumeThreshold, o.errorPercentThreshold, o.sleepWindow)));
    }
    return Ok(hl), breaker;
  }
}
