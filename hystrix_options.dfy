/**
 * The options of the rate-limit and circuit-breaker unit, plugins/middleware/hystrixlimitter/
 * options.go: the limiter constructors clamp their argument to a default, the breaker
 * setters store it verbatim, every option closure assigns exactly one field, and
 * `configure` (hystrixlimitter.go) replaces every non-positive limiter or breaker field by
 * its default.
 */
module HystrixOptions {
  import opened Base
  import opened Middleware

  /** time.Duration counts nanoseconds. */
  const Millisecond := 1_000_000

  const DefaultLimiter := 3 * Millisecond
  const DefaultLimiterBurst := 100
  const DefaultStreamLimiter := 3 * Millisecond
  const DefaultStreamLimiterBurst := 3
  const TypeServer := "server"
  const TypeClient := "client"

  /** The defaults of hystrix-go that `configure` falls back to. */
  const DefaultTimeout := 1000
  const DefaultMaxConcurrent := 10
  const DefaultVolumeThreshold := 20
  const DefaultSleepWindow := 5000
  const DefaultErrorPercentThreshold := 50

  /** hystrixlimitter.Options; durations in nanoseconds, breaker times in milliseconds. */
  datatype Options = Options(
    typ: string,
    filterOutFunc: Option<FilterFunc>,
    logger: Option<SugaredLogger>,
    limiter: int,
    streamLimiter: int,
    limiterBurst: int,
    streamLimiterBurst: int,
    serviceName: string,
    timeout: int,
    maxConcurrentRequests: int,
    requestVolumeThreshold: int,
    errorPercentThreshold: int,
    sleepWindow: int)

  /** `new(Options)`. */
  const ZeroOptions := Options("", None, None, 0, 0, 0, 0, "", 0, 0, 0, 0, 0)

  /** The fields of Options. */
  datatype Field =
    | TypeField | FilterOutFuncField | LoggerField
    | LimiterField | StreamLimiterField | LimiterBurstField | StreamLimiterBurstField
    | ServiceNameField | TimeoutField | MaxConcurrentRequestsField
    | RequestVolumeThresholdField | ErrorPercentThresholdField | SleepWindowField

  /** The two option records hold the same value in field f. */
  ghost predicate AgreeOn(a: Options, b: Options, f: Field)
  {
    match f
    case TypeField => a.typ == b.typ
    case FilterOutFuncField => a.filterOutFunc == b.filterOutFunc
    case LoggerField => a.logger == b.logger
    case LimiterField => a.limiter == b.limiter
    case StreamLimiterField => a.streamLimiter == b.streamLimiter
    case LimiterBurstField => a.limiterBurst == b.limiterBurst
    case StreamLimiterBurstField => a.streamLimiterBurst == b.streamLimiterBurst
    case ServiceNameField => a.serviceName == b.serviceName
    case TimeoutField => a.timeout == b.timeout
    case MaxConcurrentRequestsField => a.maxConcurrentRequests == b.maxConcurrentRequests
    case RequestVolumeThresholdField => a.requestVolumeThreshold == b.requestVolumeThreshold
    case ErrorPercentThresholdField => a.errorPercentThreshold == b.errorPercentThreshold
    case SleepWindowField => a.sleepWindow == b.sleepWindow
  }

  /**
   * An option closure, identified by the value it stores. The four limiter closures are
   * built by the clamping constructors below; the others store their argument verbatim.
   */
  datatype HystrixOption =
    | Type(typ: string)
    | Logger(logger: Option<SugaredLogger>)
    | FilterOutFunc(filterOutFunc: Option<FilterFunc>)
    | StoreLimiter(limiter: int)
    | StoreLimiterBurst(limiterBurst: int)
    | StoreStreamLimiter(streamLimiter: int)
    | StoreStreamLimiterBurst(streamLimiterBurst: int)
    | ServiceName(serviceName: string)
    | Timeout(timeout: int)
    | MaxConcurrentRequests(maxConcurrentRequests: int)
    | RequestVolumeThreshold(requestVolumeThreshold: int)
    | ErrorPercentThreshold(errorPercentThreshold: int)
    | SleepWindow(sleepWindow: int)

  /** The field an option closure assigns. */
  function FieldOf(opt: HystrixOption): Field
  {
    match opt
    case Type(_) => TypeField
    case Logger(_) => LoggerField
    case FilterOutFunc(_) => FilterOutFuncField
    case StoreLimiter(_) => LimiterField
    case StoreLimiterBurst(_) => LimiterBurstField
    case StoreStreamLimiter(_) => StreamLimiterField
    case StoreStreamLimiterBurst(_) => StreamLimiterBurstField
    case ServiceName(_) => ServiceNameField
    case Timeout(_) => TimeoutField
    case MaxConcurrentRequests(_) => MaxConcurrentRequestsField
    case RequestVolumeThreshold(_) => RequestVolumeThresholdField
    case ErrorPercentThreshold(_) => ErrorPercentThresholdField
    case SleepWindow(_) => SleepWindowField
  }

  /** The options hold the value the closure stores, in the closure's field. */
  ghost predicate Holds(o: Options, opt: HystrixOption)
  {
    match opt
    case Type(t) => o.typ == t
    case Logger(l) => o.logger == l
    case FilterOutFunc(f) => o.filterOutFunc == f
    case StoreLimiter(d) => o.limiter == d
    case StoreLimiterBurst(n) => o.limiterBurst == n
    case StoreStreamLimiter(d) => o.streamLimiter == d
    case StoreStreamLimiterBurst(n) => o.streamLimiterBurst == n
    case ServiceName(s) => o.serviceName == s
    case Timeout(t) => o.timeout == t
    case MaxConcurrentRequests(n) => o.maxConcurrentRequests == n
    case RequestVolumeThreshold(n) => o.requestVolumeThreshold == n
    case ErrorPercentThreshold(n) => o.errorPercentThreshold == n
    case SleepWindow(n) => o.sleepWindow == n
  }

  /** `x` if positive, otherwise the default. */
  function Clamp(x: int, default: int): (r: int)
    ensures x <= 0 ==> r == default
    ensures x > 0 ==> r == x
  {
    if x <= 0 then default else x
  }

  /** `Limiter(d)`: stores d, or DefaultLimiter (3ms) when d <= 0. */
  function Limiter(d: int): (opt: HystrixOption)
    ensures opt.StoreLimiter?
    ensures d <= 0 ==> opt.limiter == 3 * Millisecond
    ensures d > 0 ==> opt.limiter == d
  {
    StoreLimiter(Clamp(d, DefaultLimiter))
  }

  /** `LimiterBurst(n)`: stores n, or 100 when n <= 0. */
  function LimiterBurst(n: int): (opt: HystrixOption)
    ensures opt.StoreLimiterBurst?
    ensures n <= 0 ==> opt.limiterBurst == 100
    ensures n > 0 ==> opt.limiterBurst == n
  {
    StoreLimiterBurst(Clamp(n, DefaultLimiterBurst))
  }

  /** `StreamLimiter(d)`: stores d, or DefaultStreamLimiter (3ms) when d <= 0. */
  function StreamLimiter(d: int): (opt: HystrixOption)
    ensures opt.StoreStreamLimiter?
    ensures d <= 0 ==> opt.streamLimiter == 3 * Millisecond
    ensures d > 0 ==> opt.streamLimiter == d
  {
    StoreStreamLimiter(Clamp(d, DefaultStreamLimiter))
  }

  /** `StreamLimiterBurst(n)`: stores n, or 3 when n <= 0. */
  function StreamLimiterBurst(n: int): (opt: HystrixOption)
    ensures opt.StoreStreamLimiterBurst?
    ensures n <= 0 ==> opt.streamLimiterBurst == 3
    ensures n > 0 ==> opt.streamLimiterBurst == n
  {
    StoreStreamLimiterBurst(Clamp(n, DefaultStreamLimiterBurst))
  }

  /** Runs one option closure. */
  function Apply(o: Options, opt: HystrixOption): Options
  {
    match opt
    case Type(t) => o.(typ := t)
    case Logger(l) => o.(logger := l)
    case FilterOutFunc(f) => o.(filterOutFunc := f)
    case StoreLimiter(d) => o.(limiter := d)
    case StoreLimiterBurst(n) => o.(limiterBurst := n)
    case StoreStreamLimiter(d) => o.(streamLimiter := d)
    case StoreStreamLimiterBurst(n) => o.(streamLimiterBurst := n)
    case ServiceName(s) => o.(serviceName := s)
    case Timeout(t) => o.(timeout := t)
    case MaxConcurrentRequests(n) => o.(maxConcurrentRequests := n)
    case RequestVolumeThreshold(n) => o.(requestVolumeThreshold := n)
    case ErrorPercentThreshold(n) => o.(errorPercentThreshold := n)
    case SleepWindow(n) => o.(sleepWindow := n)
  }

  /** Each closure stores its value in its own field and leaves every other field alone. */
  lemma ApplyAssignsOneField(o: Options, opt: HystrixOption)
    ensures Holds(Apply(o, opt), opt)
    ensures forall f :: f != FieldOf(opt) ==> AgreeOn(o, Apply(o, opt), f)
  {
  }

  /** The breaker setters store their argument verbatim, non-positive values included. */
  lemma BreakerSettersVerbatim(o: Options, t: int)
    ensures Apply(o, Timeout(t)).timeout == t
    ensures Apply(o, MaxConcurrentRequests(t)).maxConcurrentRequests == t
    ensures Apply(o, RequestVolumeThreshold(t)).requestVolumeThreshold == t
    ensures Apply(o, ErrorPercentThreshold(t)).errorPercentThreshold == t
    ensures Apply(o, SleepWindow(t)).sleepWindow == t
  {
  }

  /** Runs the closures in order. */
  function ApplyAll(o: Options, ops: seq<HystrixOption>): Options
  {
    if ops == [] then o else Apply(ApplyAll(o, ops[..|ops| - 1]), ops[|ops| - 1])
  }

  /** A field no option touches keeps its value. */
  lemma {:induction false} UntouchedFieldKept(o: Options, ops: seq<HystrixOption>, f: Field)
    requires forall i :: 0 <= i < |ops| ==> FieldOf(ops[i]) != f
    ensures AgreeOn(o, ApplyAll(o, ops), f)
  {
    if ops != [] {
      var front := ops[..|ops| - 1];
      UntouchedFieldKept(o, front, f);
      ApplyAssignsOneField(ApplyAll(o, front), ops[|ops| - 1]);
    }
  }

  /** Options apply in order: the last closure for a field decides its value. */
  lemma {:induction false} LaterOptionWins(o: Options, before: seq<HystrixOption>, opt: HystrixOption, after: seq<HystrixOption>)
    requires forall i :: 0 <= i < |after| ==> FieldOf(after[i]) != FieldOf(opt)
    ensures Holds(ApplyAll(o, before + [opt] + after), opt)
    decreases |after|
  {
    var ops := before + [opt] + after;
    if after == [] {
      assert ops[..|ops| - 1] == before;
      ApplyAssignsOneField(ApplyAll(o, before), opt);
    } else {
      var front := after[..|after| - 1];
      var last := after[|after| - 1];
      assert ops[..|ops| - 1] == before + [opt] + front;
      LaterOptionWins(o, before, opt, front);
      ApplyAssignsOneField(ApplyAll(o, before + [opt] + front), last);
      HoldsDependsOnField(ApplyAll(o, before + [opt] + front), ApplyAll(o, ops), opt);
    }
  }

  /** Whether a record holds a closure's value depends on that closure's field alone. */
  lemma HoldsDependsOnField(a: Options, b: Options, opt: HystrixOption)
    requires AgreeOn(a, b, FieldOf(opt))
    ensures Holds(a, opt) <==> Holds(b, opt)
  {
  }

  /** `configure`'s defaults: every non-positive limiter and breaker field gets its default. */
  function WithDefaults(o: Options): (r: Options)
    ensures Configured(r)
    ensures r.typ == o.typ && r.serviceName == o.serviceName && r.logger == o.logger && r.filterOutFunc == o.filterOutFunc
  {
    o.(limiter := Clamp(o.limiter, DefaultLimiter),
       limiterBurst := Clamp(o.limiterBurst, DefaultLimiterBurst),
       streamLimiter := Clamp(o.streamLimiter, DefaultStreamLimiter),
       streamLimiterBurst := Clamp(o.streamLimiterBurst, DefaultStreamLimiterBurst),
       timeout := Clamp(o.timeout, DefaultTimeout),
       maxConcurrentRequests := Clamp(o.maxConcurrentRequests, DefaultMaxConcurrent),
       requestVolumeThreshold := Clamp(o.requestVolumeThreshold, DefaultVolumeThreshold),
       errorPercentThreshold := Clamp(o.errorPercentThreshold, DefaultErrorPercentThreshold),
       sleepWindow := Clamp(o.sleepWindow, DefaultSleepWindow))
  }

  /** Every limiter and breaker field is positive. */
  predicate Configured(o: Options)
  {
    o.limiter > 0 && o.limiterBurst > 0 && o.streamLimiter > 0 && o.streamLimiterBurst > 0
    && o.timeout > 0 && o.maxConcurrentRequests > 0 && o.requestVolumeThreshold > 0
    && o.errorPercentThreshold > 0 && o.sleepWindow > 0
  }

  /** Positive values survive the defaults and non-positive ones become the defaults. */
  lemma WithDefaultsKeepsPositive(o: Options)
    ensures o.limiter > 0 ==> WithDefaults(o).limiter == o.limiter
    ensures o.limiter <= 0 ==> WithDefaults(o).limiter == DefaultLimiter
    ensures o.limiterBurst > 0 ==> WithDefaults(o).limiterBurst == o.limiterBurst
    ensures o.limiterBurst <= 0 ==> WithDefaults(o).limiterBurst == DefaultLimiterBurst
    ensures o.streamLimiter > 0 ==> WithDefaults(o).streamLimiter == o.streamLimiter
    ensures o.streamLimiter <= 0 ==> WithDefaults(o).streamLimiter == DefaultStreamLimiter
    ensures o.streamLimiterBurst > 0 ==> WithDefaults(o).streamLimiterBurst == o.streamLimiterBurst
    ensures o.streamLimiterBurst <= 0 ==> WithDefaults(o).streamLimiterBurst == DefaultStreamLimiterBurst
    ensures o.timeout > 0 ==> WithDefaults(o).timeout == o.timeout
    ensures o.timeout <= 0 ==> WithDefaults(o).timeout == DefaultTimeout
    ensures o.maxConcurrentRequests > 0 ==> WithDefaults(o).maxConcurrentRequests == o.maxConcurrentRequests
    ensures o.maxConcurrentRequests <= 0 ==> WithDefaults(o).maxConcurrentRequests == DefaultMaxConcurrent
    ensures o.requestVolumeThreshold > 0 ==> WithDefaults(o).requestVolumeThreshold == o.requestVolumeThreshold
    ensures o.requestVolumeThreshold <= 0 ==> WithDefaults(o).requestVolumeThreshold == DefaultVolumeThreshold
    ensures o.errorPercentThreshold > 0 ==> WithDefaults(o).errorPercentThreshold == o.errorPercentThreshold
    ensures o.errorPercentThreshold <= 0 ==> WithDefaults(o).errorPercentThreshold == DefaultErrorPercentThreshold
    ensures o.sleepWindow > 0 ==> WithDefaults(o).sleepWindow == o.sleepWindow
    ensures o.sleepWindow <= 0 ==> WithDefaults(o).sleepWindow == DefaultSleepWindow
  {
  }

  /** Configured options are a fixed point of the defaults, so configuring twice changes nothing more. */
  lemma WithDefaultsIdempotent(o: Options)
    ensures Configured(o) ==> WithDefaults(o) == o
    ensures WithDefaults(WithDefaults(o)) == WithDefaults(o)
  {
  }
}
