/** The `stream` package: a price source read through two channels. Channels
    are identified, not simulated; a nil channel is `None`. `Get` blocks in a
    three-way select; the model takes the case that fired as an input. */
module Stream {
  import opened Wrappers
  import opened Errors
  import opened Ticker

  /** A receive-only channel of prices, by identity. */
  datatype PriceChan = PriceChan(id: nat)

  /** A receive-only channel of errors, by identity. */
  datatype ErrorChan = ErrorChan(id: nat)

  /** The select case that fired in `Get`. When several are ready at once Go
      picks one of them at random; whichever it picked is what this names. */
  datatype Ready =
    | PriceReady(p: Price)        // a price was received on the price channel
    | ErrorReady(e: Error)        // an error was received on the error channel
    | ContextDone(reason: CtxErr) // ctx.Done() was closed

  /** Go's `(*ticker.Price, error)` result pair; `None` is nil. */
  datatype Reply = Reply(price: Option<Price>, err: Option<Error>)

  datatype ChanStream = ChanStream(errors: ErrorChan, ticker: PriceChan) {

    /** Returns the received price, the received error or the context's
        error: exactly one of the two halves of the reply is non-nil. */
    function Get(ready: Ready): (r: Reply)
      ensures r.price.Some? != r.err.Some?
      ensures r.price.Some? <==> ready.PriceReady?
      ensures ready.PriceReady? ==> r.price == Some(ready.p)
      ensures ready.ErrorReady? ==> r.err == Some(ready.e)
      ensures ready.ContextDone? ==> r.err == Some(Ctx(ready.reason))
    {
      match ready
      case PriceReady(p) => Reply(Some(p), None)
      case ErrorReady(e) => Reply(None, Some(e))
      case ContextDone(reason) => Reply(None, Some(Ctx(reason)))
    }
  }

  /** Builds a stream over the two channels; either channel nil is an error
      and yields no stream. */
  function NewChanStream(t: Option<PriceChan>, errs: Option<ErrorChan>): (r: (Option<ChanStream>, Option<Error>))
    ensures r.1.Some? <==> t.None? || errs.None?
    ensures r.1.Some? ==> r.0.None? && r.1.value == InvalidChannel
    ensures r.1.None? ==> r.0.Some? && r.0.value.ticker == t.value && r.0.value.errors == errs.value
  {
    if t.None? || errs.None? then (None, Some(InvalidChannel))
    else (Some(ChanStream(errors := errs.value, ticker := t.value)), None)
  }
}
