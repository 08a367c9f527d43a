/**
 * The handler contract and the collaborators both transports hold: a handler's
 * `Handle` is a function of the dispatch instance's type and fields that
 * returns a result and an optional error; loggers and event buses are opaque
 * references.
 */
module Handlers {
  import opened Wrappers
  import opened Reflect

  /**
   * An error returned by Handle. `statusCode` is Some when the error value
   * also has a `StatusCode() int` method, `payload` is Some when it has a
   * `Payload() any` method.
   */
  datatype HandlerError = HandlerError(message: string, statusCode: Option<int>, payload: Option<AnyValue>)

  /** What Handle returns: `(any, error)`. */
  datatype Reply = Reply(result: AnyValue, err: Option<HandlerError>)

  /**
   * Handle(ctx) of the handler whose struct type is the first argument, run on the given fields.
   * The context's values (the HTTP request and ResponseWriter) are not passed: a handler here
   * only returns its reply and never writes a response of its own.
   */
  type HandleFn = (string, seq<Field>) -> Reply

  /** A logger.Logger value; Nop is logger.Nop. */
  datatype Logger = Nop | CustomLogger(id: nat)

  /** A *bus.Bus value; NoBus is nil, DefaultBus is bus.Default(). */
  datatype Bus = NoBus | DefaultBus | CustomBus(id: nat)
}
