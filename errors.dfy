/** The error values that travel through the pipeline. Go's `error` is an
    open interface; the model names the values the core creates or compares
    and keeps one constructor for errors that come from outside. */
module Errors {

  /** What `ctx.Err()` returns once a context is done. */
  datatype CtxErr = Canceled | DeadlineExceeded

  datatype Error =
    | InvalidChannel             // stream.ErrInvalidChannel
    | InvalidHandler             // indexer.ErrInvalidHandler
    | InvalidCollecter           // indexer.ErrInvalidCollecter
    | Ctx(reason: CtxErr)        // context.Canceled / context.DeadlineExceeded
    | NumError(num: string)      // the error strconv.ParseFloat returns for `num`
    | Source(msg: string)        // an error produced by a price source
}
