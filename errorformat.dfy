/**
 * The error-format unit of plugins/middleware/errorformat: on the server side every error
 * a handler returns is rewritten into a gRPC status carrying a code and a message; on the
 * client side results pass through untouched.
 */
module ErrorFormat {
  import opened Base
  import opened Middleware

  /** `codes.Code(x)`: the conversion to a 32-bit unsigned code wraps modulo 2^32. */
  function ToCode(x: int): (c: nat)
    ensures c < 0x1_0000_0000
    ensures 0 <= x < 0x1_0000_0000 ==> c == x
    ensures (c - x) % 0x1_0000_0000 == 0
  {
    x % 0x1_0000_0000
  }

  /** `status.New(code, msg).Err()`: nil for code OK (0), otherwise the status error. */
  function StatusErr(code: nat, msg: string): (e: Option<Error>)
    ensures e.None? <==> code == 0
    ensures e.Some? ==> e.value == Status(code, msg)
  {
    if code == 0 then None else Some(Status(code, msg))
  }

  /**
   * `microerror.GetMicroError(microerror.UnknownServerError, err)` lives in another
   * repository; it is the parameter `unknown`.
   */
  type Wrap = Error -> MicroError

  /**
   * `serverError`: nil stays nil; a MicroError keeps its code and message; any other error
   * is first turned into a MicroError by `unknown`. The result is a status error, or nil
   * when the code is OK.
   */
  function ServerError(err: Option<Error>, unknown: Wrap): (r: Option<Error>)
    ensures err.None? ==> r.None?
    ensures r.None? || r.value.Status?
    ensures err.Some? && err.value.Micro? ==>
              var m := err.value.micro;
              r == StatusErr(ToCode(m.code), m.msg)
    ensures err.Some? && !err.value.Micro? ==>
              var m := unknown(err.value);
              r == StatusErr(ToCode(m.code), m.msg)
  {
    match err
    case None => None
    case Some(e) =>
      var m := if e.Micro? then e.micro else unknown(e);
      StatusErr(ToCode(m.code), m.msg)
  }

  /** A MicroError with a code in the 32-bit range other than OK comes out with the same code and message. */
  lemma MicroErrorPreserved(m: MicroError, unknown: Wrap)
    requires 0 < m.code < 0x1_0000_0000
    ensures ServerError(Some(Micro(m)), unknown) == Some(Status(m.code, m.msg))
  {
  }

  /** Codes that differ by 2^32 collapse to the same status. */
  lemma CodeWraps(m: MicroError, unknown: Wrap)
    ensures ServerError(Some(Micro(m.(code := m.code + 0x1_0000_0000))), unknown)
            == ServerError(Some(Micro(m)), unknown)
  {
    assert ToCode(m.code + 0x1_0000_0000) == ToCode(m.code);
  }

  /** errorformat.Options. */
  datatype Options = Options(filterOutFunc: Option<FilterFunc>)

  /** `ErrorFormat` with its options, as NewErrorFormat builds it. */
  datatype ErrorFormat = ErrorFormat(options: Options)
  {
    /**
     * `UnaryHandler`: a filtered-out call returns the handler's result untouched; otherwise
     * the handler's resp is returned with its error rewritten by `serverError`.
     */
    function UnaryHandler(ctx: Ctx, req: Value, fullMethod: string, handler: UnaryHandler, unknown: Wrap): (r: UnaryResult)
      ensures FilteredOut(options.filterOutFunc, ctx, fullMethod) ==> r == handler(ctx, req)
      ensures !FilteredOut(options.filterOutFunc, ctx, fullMethod) ==>
                r.resp == handler(ctx, req).resp && r.err == ServerError(handler(ctx, req).err, unknown)
      ensures r.resp == handler(ctx, req).resp
    {
      if FilteredOut(options.filterOutFunc, ctx, fullMethod) then handler(ctx, req)
      else
        var h := handler(ctx, req);
        UnaryResult(h.resp, ServerError(h.err, unknown))
    }

    /** `StreamHandler`: as UnaryHandler, for the handler's error alone. */
    function StreamHandler(srv: Value, stream: ServerStream, fullMethod: string, handler: StreamHandler, unknown: Wrap): (r: Option<Error>)
      ensures FilteredOut(options.filterOutFunc, stream.ctx, fullMethod) ==> r == handler(srv, stream)
      ensures !FilteredOut(options.filterOutFunc, stream.ctx, fullMethod) ==> r == ServerError(handler(srv, stream), unknown)
    {
      if FilteredOut(options.filterOutFunc, stream.ctx, fullMethod) then handler(srv, stream)
      else ServerError(handler(srv, stream), unknown)
    }

    /** `UnaryClient`: the invoker's error, unchanged, on both paths. */
    function UnaryClient(ctx: Ctx, fullMethod: string, req: Value, reply: Value, invoker: UnaryInvoker): (r: Option<Error>)
      ensures r == invoker(ctx, fullMethod, req, reply)
    {
      if FilteredOut(options.filterOutFunc, ctx, fullMethod) then invoker(ctx, fullMethod, req, reply)
      else invoker(ctx, fullMethod, req, reply)
    }

    /** `StreamClient`: the streamer's (cs, err), unchanged, on both paths. */
    function StreamClient(ctx: Ctx, fullMethod: string, streamer: Streamer): (r: StreamResult)
      ensures r == streamer(ctx, fullMethod)
    {
      if FilteredOut(options.filterOutFunc, ctx, fullMethod) then streamer(ctx, fullMethod)
      else streamer(ctx, fullMethod)
    }
  }

  /** A server handler that succeeds still succeeds through the unit, whether or not it was filtered. */
  lemma SuccessUntouched(ef: ErrorFormat, ctx: Ctx, req: Value, fullMethod: string, handler: UnaryHandler, unknown: Wrap)
    requires handler(ctx, req).err.None?
    ensures ef.UnaryHandler(ctx, req, fullMethod, handler, unknown) == handler(ctx, req)
  {
  }
}
