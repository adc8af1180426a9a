/**
 * The template unit of plugins/middleware/tpl: all four interceptors call their
 * continuation with the arguments they received, on the filtered and on the normal path.
 */
module Tpl {
  import opened Base
  import opened Middleware

  /** tpl.Options. */
  datatype Options = Options(filterOutFunc: Option<FilterFunc>, logger: Option<SugaredLogger>)

  datatype TplOption = FilterOutFunc(f: Option<FilterFunc>) | Logger(l: Option<SugaredLogger>)

  function Apply(o: Options, opt: TplOption): Options
  {
    match opt
    case FilterOutFunc(f) => o.(filterOutFunc := f)
    case Logger(l) => o.(logger := l)
  }

  function ApplyAll(o: Options, ops: seq<TplOption>): Options
  {
    if ops == [] then o else Apply(ApplyAll(o, ops[..|ops| - 1]), ops[|ops| - 1])
  }

  /** `Tpl` with its options, as NewTpl builds it from zeroed options. */
  datatype Tpl = Tpl(options: Options)
  {
    /** `UnaryHandler`: the handler's (resp, err) for the original (ctx, req), whatever the filter says. */
    function UnaryHandler(ctx: Ctx, req: Value, fullMethod: string, handler: UnaryHandler): (r: UnaryResult)
      ensures r == handler(ctx, req)
    {
      if FilteredOut(options.filterOutFunc, ctx, fullMethod) then handler(ctx, req)
      else handler(ctx, req)
    }

    /** `StreamHandler`: the handler's error for the original (srv, stream), whatever the filter says. */
    function StreamHandler(srv: Value, stream: ServerStream, fullMethod: string, handler: StreamHandler): (r: Option<Error>)
      ensures r == handler(srv, stream)
    {
      if FilteredOut(options.filterOutFunc, stream.ctx, fullMethod) then handler(srv, stream)
      else handler(srv, stream)
    }

    /** `UnaryClient`: the invoker's error for the original arguments, whatever the filter says. */
    function UnaryClient(ctx: Ctx, fullMethod: string, req: Value, reply: Value, invoker: UnaryInvoker): (r: Option<Error>)
      ensures r == invoker(ctx, fullMethod, req, reply)
    {
      if FilteredOut(options.filterOutFunc, ctx, fullMethod) then invoker(ctx, fullMethod, req, reply)
      else invoker(ctx, fullMethod, req, reply)
    }

    /** `StreamClient`: the streamer's (cs, err) for the original arguments, whatever the filter says. */
    function StreamClient(ctx: Ctx, fullMethod: string, streamer: Streamer): (r: StreamResult)
      ensures r == streamer(ctx, fullMethod)
    {
      if FilteredOut(options.filterOutFunc, ctx, fullMethod) then streamer(ctx, fullMethod)
      else streamer(ctx, fullMethod)
    }
  }

  /** `NewTpl`: zeroed options, then the options in order. */
  function NewTpl(ops: seq<TplOption>): Tpl
  {
    Tpl(ApplyAll(Options(None, None), ops))
  }
}
