/**
 * The middleware contract of plugins/middleware/middleware.go: the call context, the
 * continuations a unit receives, the per-unit filter and the tags of the concrete units.
 */
module Middleware {
  import opened Base

  /** A gRPC `metadata.MD`: a map from key to values, shared by reference. */
  class MD {
    var pairs: map<string, seq<string>>

    constructor (pairs: map<string, seq<string>>)
      ensures this.pairs == pairs
    {
      this.pairs := pairs;
    }
  }

  /** A tracing span handed out by the tracer. */
  datatype Span = Span(id: nat)

  /**
   * A `context.Context`: `tag` distinguishes contexts that differ in ways the model does
   * not track, `span` is the span stored with opentracing.ContextWithSpan, and `outgoing`
   * is the outgoing metadata (metadata.NewOutgoingContext), if any.
   */
  datatype Ctx = Ctx(tag: nat, span: Option<Span>, outgoing: Option<MD>)

  /** What a unary server handler returns: (resp interface{}, err error). */
  datatype UnaryResult = UnaryResult(resp: Value, err: Option<Error>)

  /** What a stream client call returns: (grpc.ClientStream, error). */
  datatype StreamResult = StreamResult(cs: Value, err: Option<Error>)

  /** A `grpc.ServerStream`; `Context()` returns `ctx`. */
  datatype ServerStream = ServerStream(ctx: Ctx, id: nat)

  /** grpc.UnaryHandler: (ctx, req) -> (resp, err). */
  type UnaryHandler = (Ctx, Value) -> UnaryResult

  /** grpc.StreamHandler: (srv, stream) -> err. */
  type StreamHandler = (Value, ServerStream) -> Option<Error>

  /** grpc.UnaryInvoker: (ctx, method, req, reply) -> err. */
  type UnaryInvoker = (Ctx, string, Value, Value) -> Option<Error>

  /** grpc.Streamer: (ctx, method) -> (cs, err). */
  type Streamer = (Ctx, string) -> StreamResult

  /** middleware.FilterFunc: false means the unit does not process this call. */
  type FilterFunc = (Ctx, string) -> bool

  /**
   * The guard every unit opens with: a filter is set and rejects the call, so the unit
   * only calls its continuation.
   */
  predicate FilteredOut(filter: Option<FilterFunc>, ctx: Ctx, fullMethod: string)
  {
    filter.Some? && !filter.value(ctx, fullMethod)
  }

  /** The concrete middleware units of the repository, and any unit an application supplies. */
  datatype Unit =
    | ZapLoggerUnit
    | OpentracingUnit
    | PrometheusUnit
    | HystrixLimitterUnit(typ: string)
    | ErrorFormatUnit
    | TplUnit
    | CustomUnit(id: nat)
}
