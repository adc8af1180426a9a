/**
 * Values shared by every part of the model: optional values (Go's nil), results of
 * foreign calls, the errors the framework creates or passes through, and opaque
 * handles for the objects it never looks into (payloads, loggers).
 */
module Base {

  /** Some(v) for a non-nil pointer, slice or interface value; None for nil. */
  datatype Option<+T> = None | Some(value: T)

  /** The result of a foreign call that either yields a value or fails. */
  datatype Result<+T> = Ok(value: T) | Err(error: Error)

  /** A `*microerror.MicroError`: an application error with a numeric code and a message. */
  datatype MicroError = MicroError(code: int, msg: string)

  /** Error values that the middleware units produce, inspect or pass through. */
  datatype Error =
    | EOF                              // io.EOF
    | LimitExceed                      // hystrixlimitter.ErrLimitExceed, "Rate limit exceed!"
    | Micro(micro: MicroError)         // an error whose dynamic type is *microerror.MicroError
    | Status(code: nat, msg: string)   // a gRPC status error (status.New(code, msg).Err())
    | Fatal(reason: string)            // construction aborted (log.Fatalln / Logger.Fatalw)
    | Other(text: string)              // any other error value

  /** A request, response, reply or stream handle the framework only forwards; Nil is Go's nil. */
  datatype Value = Nil | Value(id: nat)

  /** A `*zap.SugaredLogger` supplied by the application. */
  datatype SugaredLogger = SugaredLogger(id: nat)

  /** `*grpc.ClientConn`, `*grpc.Server` and similar handles the model does not look into. */
  datatype Handle = Handle(id: nat)
}
