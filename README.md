# Streaming price indexer, modelled in Dafny

This project models the core of a streaming price indexer written in Go.
A **stream** turns a channel-based price source into a cancellable `Get`.
A **collecter** gathers one price from every stream concurrently, all or nothing.
The **indexer** runs a ticking loop. On every tick it collects prices and folds them into a per-ticker table of running averages. It then calls a user handler once for every ticker it has ever seen. A `started` flag, a one-slot `done` channel and an `err` slot govern its life.

Modules, one per concern of the source:

- `Wrappers`, `Errors`, `Ticker`: `Option`, the error values, and the `ticker` package's data (`Ticker`, `Time`, `Price`).
- `Stream` (stream/stream.go): `NewChanStream` and `ChanStream.Get`, as functions. `Get` takes the select case that fired as an input.
- `Collecter` (collecter/collecter.go): `StreamCollecter.Collect` is a method that fills an array slot by slot. It takes two inputs: the select case each stream's `Get` took, and the order in which the goroutines completed. The collecter holds any `stream.Stream`; the model takes every stream to be a `ChanStream`.
- `Averaging` (the `avg` type of indexer.go): the value `Acc`, the in-place class `Avg`, and lemmas about folding samples.
- `Indexer` (indexer.go): the `Indexer` class over a map of `Avg` objects, with a recording `Handler`. `index` is specified by the functions `FoldPrices`/`IndexTable` and the predicate `Reports`.
- `Lifecycle` (indexer.go): Start, Stop and the loop's exit paths as a pure event-driven state machine, with lemmas over whole runs. `Stop` is two events: its load of `started`, and its select, with other events possibly in between. The class's methods are tied to it through `Indexer.Life()`.

Goroutines, channels, the mutex and the atomic flag become sequential steps. Each step is one event, and the event says which `select` case fired. `strconv.ParseFloat` and `strconv.FormatFloat` are the parameters `parse: string -> Option<real>` and `format: real -> string`. `float64` becomes `real`.

Two behaviours of the code are kept as written, though a reader might expect otherwise:

- The first sample of a ticker is stored as parsed, sign included, with a count of 1. Only later samples go through `Add`, which takes the absolute value (indexer.go:139-147).
- An error received from an `index` call overwrites `err` even when an earlier run already recorded one. A context error is recorded only when `err` is nil (indexer.go:110-117).

## Model

| member | source | states |
|---|---|---|
| `Stream.NewChanStream` | stream/stream.go:24-33 | a nil price or error channel, or both nil, gives no stream and `ErrInvalidChannel`; otherwise the stream holds exactly the two given channels and the error is nil |
| `Stream.ChanStream.Get` | stream/stream.go:36-45 | exactly one of price and error is non-nil; a received price is returned with a nil error; a received error is returned with a nil price; a done context yields `ctx.Err()` (Canceled or DeadlineExceeded) |
| `Collecter.NewStreamCollecter` | collecter/collecter.go:21-25 | the collecter keeps the given stream list unchanged |
| `Collecter.FirstErrIsFirstFailure` | collecter/collecter.go:33-45 | the errgroup's error is nil iff every call succeeded; otherwise it is the error of a failed call that no earlier-completed call's failure precedes |
| `Collecter.StreamCollecter.Collect` | collecter/collecter.go:28-49 | on success the slice has one slot per stream and slot i holds stream i's price, whatever the completion order (an empty stream list gives an empty, non-nil slice); if any stream fails, the slice is nil and the error is the one returned by the first failing call in completion order, so no error is invented |
| `Averaging.Acc.Add` | indexer.go:166-171 | `Add(b)` raises the sum by exactly \|b\| and the count by exactly 1 |
| `Averaging.Acc.Average` | indexer.go:173-175 | the average times the count is the sum |
| `Averaging.Avg.constructor` | indexer.go:140-143 | the composite literal holds exactly the given sum and count |
| `Averaging.Avg.Add` | indexer.go:166-171 | updates the receiver in place (sum + \|b\|, count + 1) and returns the receiver itself |
| `Averaging.Avg.Average` | indexer.go:173-175 | sum / num of the object, the same value as its `Acc` |
| `Averaging.AddAllAccumulates` | indexer.go:166-171 | folding samples with `Add` adds the sum of their magnitudes and their number |
| `Averaging.AddAllOrderIndependent` | indexer.go:166-171 | for `Add` calls on an existing accumulator, the result does not depend on the order of the samples (a new table entry does: see `Indexer.FirstSampleKeepsSign`) |
| `Averaging.AddAllSignInsensitive` | indexer.go:167 | for `Add` calls on an existing accumulator, negating every sample leaves the result unchanged (a new table entry keeps its first sample's sign) |
| `Averaging.AddAllExamples` | indexer_test.go:339-401 | from zero, 1,2,3,4 and -1,-2,-3,-4 give {sum 10, num 4}; 2,4,8,10 and -2,-4,-8,-10 average 6 |
| `Indexer.NewIndexer` | indexer.go:41-57 | a nil handler gives `ErrInvalidHandler` (checked first, so two nils give it too); a nil collecter gives `ErrInvalidCollecter`; otherwise a new indexer with an empty table, nil `err`, `started` false, an empty `done` slot and the given collecter, handler and interval |
| `Indexer.Indexer.constructor` | indexer.go:50-57 | the fields of a freshly built indexer, as above |
| `Indexer.Indexer.Err` | indexer.go:87-89 | returns the recorded error |
| `Indexer.Indexer.Start` | indexer.go:75-83 | already started: nothing changes; otherwise `started` becomes true |
| `Indexer.Indexer.StopCheck` | indexer.go:61-64 | not started: Stop returns (nil) and nothing changes; started: the call goes on to wait in its select |
| `Indexer.Indexer.StopSelected` | indexer.go:66-71 | a waiting Stop leaves its select: the send fills the empty `done` slot and returns nil, whether or not the loop is still running; Stop's context being done returns `ctx.Err()` and leaves the slot as it was |
| `Indexer.Indexer.OnTick` | indexer.go:100-107 | the tick's `index` call runs; if it fails, its error joins the errors waiting on `errs`; table and handler calls as for `Index` |
| `Indexer.Indexer.OnDone` | indexer.go:108-109 | the signal is taken from the slot, the loop exits, `started` is cleared and `err` is unchanged |
| `Indexer.Indexer.OnCtxDone` | indexer.go:110-114 | `err` becomes the context error only if it was nil; the loop exits and `started` is cleared |
| `Indexer.Indexer.OnIndexErr` | indexer.go:115-117 | `err` becomes the received index error; the loop exits and `started` is cleared |
| `Indexer.Indexer.Index` | indexer.go:124-159 | a collect error is returned with the table unchanged; a parse error returns the first failing price's error with the earlier prices folded in; neither calls the handler; on success the handler gets one call per key of the table, each with the tick's time and the formatted average |
| `Indexer.Indexer.FoldIn` | indexer.go:133-148 | the table after the loop is `FoldPrices` of the old table; every accumulator keeps a count of at least 1 and no two tickers share one; every accumulator the map holds afterwards was there before or is newly allocated |
| `Indexer.Indexer.FoldOne` | indexer.go:139-147 | a new ticker gets a newly allocated accumulator holding the raw parsed value with count 1, and no other key changes; a known ticker's accumulator is updated in place by `Add`, and the map keeps the same objects |
| `Indexer.Indexer.Publish` | indexer.go:150-156 | the calls made are a `Reports` batch for the table: every key once, no other ticker, in the map's unspecified order |
| `Indexer.FoldPricesKeys` | indexer.go:139-147 | folding never removes a ticker and adds only tickers named by the prices; it adds all of them when every price parses; counts stay at least 1 |
| `Indexer.FoldPricesStopsAtError` | indexer.go:133-137 | prices after the first parse failure are never looked at |
| `Indexer.FoldPricesError` | indexer.go:133-137 | the fold fails iff some price does not parse; it fails with the first such price's error, and the samples before it are already folded |
| `Indexer.FoldPricesEntry` | indexer.go:133-147 | when every price parses, each ticker's entry is the closed form `Entry` of its own samples, whatever other tickers' prices are interleaved: a new ticker starts from its first sample as parsed (no absolute value), each later sample adds its magnitude, the count is the number of samples, and a ticker with no sample is unchanged (absent stays absent) |
| `Indexer.FoldPricesEntryAny` | indexer.go:133-147 | with any parse results, the same holds for the samples before the first price that does not parse |
| `Indexer.EntryAppend` | indexer.go:139-147 | reaching an entry through one run of samples and then another is the same as through their concatenation |
| `Indexer.IndexAllKeepsKeys` | indexer.go:139-147 | across any sequence of `index` calls no key is removed and every count stays at least 1 |
| `Indexer.IndexAllEntry` | indexer.go:124-147 | across any sequence of `index` calls, failed ones included, a ticker's entry is `Entry` of all the samples folded into it |
| `Indexer.NewTickerAverage` | indexer.go:139-175 | for a ticker not in the starting table, after any sequence of `index` calls: it is present iff it got a sample; its count is its number of samples; its sum is Σ\|v\| except that a negative first sample counts with its sign; with non-negative samples the average is Σ\|v\|/n |
| `Indexer.FirstSampleKeepsSign` | indexer.go:139-147 | for a new ticker, -1 then 2 gives sum 1 but 2 then -1 gives sum 3, and -1,-2,-3,-4 give sum 8 where `Add` alone gives 10 |
| `Indexer.TickersCount` | indexer.go:150-156 | calls for distinct tickers number as many as their tickers |
| `Indexer.ReportsOncePerKey` | indexer.go:150-156 | a report batch has exactly as many calls as the table has keys, and one for each key, including keys not updated by this call |
| `Indexer.ReportsDetermined` | indexer.go:150-156 | any two report batches for the same table and tick are equal as multisets: the handler's calls are fixed up to order |
| `Indexer.IndexTwoSamplesExample` | indexer_test.go:297-336 | samples "2" and "2" for BTC_USD give a table {BTC_USD: sum 4, num 2} and exactly one handler call, for BTC_USD at the tick's time with price "2" |
| `Lifecycle.StopReply` | indexer.go:66-71 | a Stop that waited returns nil iff its signal was sent, and otherwise its context's error |
| `Lifecycle.StopAlone` | indexer.go:61-72 | a Stop that nothing interleaves with: not started, nothing changes; started, it either fills the empty slot or leaves the state unchanged |
| `Lifecycle.Exit` | indexer.go:94 | every loop exit clears `started` and leaves `done` and `err` alone |
| `Lifecycle.Next` | indexer.go:61-119 | per event: Start sets `started` (a no-op when set); Stop's check changes nothing when not started and otherwise makes it wait; its select fills the slot on a send, whatever `started` is now; ticks keep `err`; every loop exit clears `started`; the done case keeps `err`; the context case sets `err` only if nil; the errs case overwrites it |
| `Lifecycle.RunKeepsInv` | indexer.go:96-117 | errors wait on `errs` only while a loop runs |
| `Lifecycle.ErrIsNeverCleared` | indexer.go:108-117 | once recorded, an error is never reset to nil by any run of events |
| `Lifecycle.ErrorsComeFromEvents` | indexer.go:101-117 | the recorded error is the earlier one, a context error of the run, or an error returned by one of the run's `index` calls |
| `Lifecycle.NilErrMeansCleanStops` | indexer.go:85-117 | if `Err()` is nil after a run, it was nil at the start and no loop exited through its context or an index error |
| `Lifecycle.StaleStopSignal` | indexer.go:61-114 | a Stop that saw the loop running and sends after the loop exited through its context leaves the signal in the slot; it ends the next loop at once |
| `Lifecycle.SecondStopLeavesStaleSignal` | indexer.go:61-109 | two Stops on a running loop both pass the check; the first signal ends the loop; the second, blocked until then, sends into the emptied slot and returns nil: `started` is false with a signal pending and no error, and the next loop ends at once |
| `Lifecycle.AsWrittenStartRaces` | indexer.go:75-83 | with Start as written, two Starts can spawn two loops, and a loop can exit before Start stores true, which leaves `started` set with no loop |
| `Lifecycle.CasStartKeepsOneLoop` | indexer.go:75-83 | with an atomic compare-and-swap Start, exactly one loop runs while `started` is set and none otherwise, under any interleaving |

## Left out

- Goroutines, `errgroup`, `sync.Mutex`, `atomic.Bool` and Go's random choice among ready `select` cases become sequential steps. Each step's input names the case that fired. Interleavings of separate steps are modelled for `Stop` (its load of `started`, then its select) and for the as-written `Start`; every other operation is one atomic event.
- Real time and `time.NewTicker`: ticks are events, and `interval` is only stored. `time.NewTicker` panics on a non-positive interval, which `NewIndexer` does not check; that panic is not modelled.
- A tick runs its `index` call at once. An `index` call spawned by a tick that is still running when the loop exits is not modelled. The loop's blocked senders on `errs` are dropped at exit: they leak in the source.
- The `collecter` field keeps the value `NewIndexer` was given, typed as the stream collecter. In the source it is the `Collecter` interface. `Index` takes the result of its `Collect` call as an input, so the stored value is never consulted.
- `float64` arithmetic and rounding: sums and counts are `real`. `strconv.ParseFloat` and `strconv.FormatFloat` are parameters. ParseFloat's non-finite results ("Inf", "NaN", out-of-range values) are not modelled.
- Averaging.Acc.Average: requires a non-zero count, because float64 division by zero (NaN or an infinity) is not modelled. Every accumulator in the table has a count of at least 1.
- Averaging.Avg.Average: requires a non-zero count, for the same reason.
- A nil error sent on a stream's error channel would make `Get` return neither a price nor an error. The model's error case always carries a non-nil error. Streams given to the collecter are all modelled as `ChanStream`; another `stream.Stream` implementation that returns (nil, nil) is not modelled either.
- A `Collecter` implementation that returns nil entries in its slice would make `index` panic. The model's collected prices are values.
- The user's handler function is represented by a `Handler` object that records its calls.
- cmd/indexer/main.go (demo entry point with a random price source) and the `PriceStreamSubscriber` interface of ticker/ticker.go are not part of this model.

## Findings

| source | as written | input that shows it | evidently intended | confidence | as-written member | corrected member |
|---|---|---|---|---|---|---|
| indexer.go:75-83 | `Start` loads `started`, spawns the loop, and only then stores true, in three separate steps | two goroutines call `Start` on an idle indexer and both load the flag before either stores it: two loops run; or the context is already cancelled and the spawned loop returns (storing false) before `Start` stores true: `started` stays set with no loop, and every later `Start` is a no-op | `Start` is race-safe: one compare-and-swap from false to true before spawning, so exactly one loop runs while `started` is set | not executed; medium | `Lifecycle.AsWrittenStartRaces` | `Lifecycle.CasStartKeepsOneLoop` |

The rest of the model uses the atomic `Start`: `Indexer.Indexer.Start` is a single step.
