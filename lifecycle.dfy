/** The lifecycle of an Indexer as an event-driven state machine: the
    `started` flag, the one-slot `done` channel, the `err` slot, and the
    index calls whose errors wait to be received by the running loop. Each
    goroutine step is one event; which select case fired is part of the
    event. */
module Lifecycle {
  import opened Wrappers
  import opened Errors

  datatype State = State(
    started: bool,        // the atomic `started` flag
    done: bool,           // the one-slot `done` channel holds a signal
    err: Option<Error>,   // the `err` field
    pending: seq<Error>,  // index calls blocked sending on the loop's `errs`
    stopping: nat)        // Stop calls that saw `started` and wait in their select

  /** The state NewIndexer creates. */
  const Initial := State(false, false, None, [], 0)

  /** The select case a blocked `Stop` left through. */
  datatype StopSelect =
    | SignalSent                 // the send on `done` went through
    | StopCtxDone(reason: CtxErr) // Stop's context was done

  datatype Event =
    | Start                        // Start(ctx)
    | StopCheck                    // Stop(ctx) loads `started`
    | StopSelected(sel: StopSelect) // a waiting Stop(ctx) leaves its select
    | Tick(indexErr: Option<Error>) // the ticker fired; the index call it spawned returned indexErr
    | DoneReceived                 // the loop received the stop signal
    | CtxDone(reason: CtxErr)      // the loop's context was done
    | IndexErrReceived(j: nat)     // the loop received the error of pending index call j

  /** Whether the event can happen in state `s`: the loop's cases only while
      it runs, a select only for a Stop that is waiting in it, a send on
      `done` only into an empty slot, a receive only from a full one. */
  predicate Enabled(s: State, ev: Event) {
    match ev
    case Start => true
    case StopCheck => true
    case StopSelected(sel) => s.stopping > 0 && (sel.SignalSent? ==> !s.done)
    case Tick(_) => s.started
    case DoneReceived => s.started && s.done
    case CtxDone(_) => s.started
    case IndexErrReceived(j) => s.started && j < |s.pending|
  }

  /** What a `Stop` that waited in its select returns: nil when the signal
      was sent, and its context's error otherwise. */
  function StopReply(sel: StopSelect): (r: Option<Error>)
    ensures r.None? <==> sel.SignalSent?
    ensures sel.StopCtxDone? ==> r == Some(Ctx(sel.reason))
  {
    match sel
    case SignalSent => None
    case StopCtxDone(reason) => Some(Ctx(reason))
  }

  /** The loop returns: its deferred `started.Store(false)` runs, and the
      index calls still blocked on its private `errs` channel are abandoned. */
  function Exit(s: State): (r: State)
    ensures !r.started && r.pending == [] && r.done == s.done && r.err == s.err && r.stopping == s.stopping
  {
    s.(started := false, pending := [])
  }

  /** The state after an enabled event. */
  function Next(s: State, ev: Event): (r: State)
    requires Enabled(s, ev)
    ensures ev.Start? ==> r.started && (s.started ==> r == s) && r.err == s.err && r.done == s.done
    ensures ev.StopCheck? && !s.started ==> r == s
    ensures ev.StopCheck? && s.started ==> r == s.(stopping := s.stopping + 1)
    ensures ev.StopSelected? ==> r.stopping == s.stopping - 1 && r.started == s.started && r.err == s.err
    ensures ev.StopSelected? ==> r.done == (s.done || ev.sel.SignalSent?)
    ensures ev.Tick? ==> r.started && r.err == s.err && r.done == s.done
    ensures ev.DoneReceived? || ev.CtxDone? || ev.IndexErrReceived? ==> !r.started && r.pending == []
    ensures ev.DoneReceived? ==> r.err == s.err && !r.done
    ensures ev.CtxDone? ==> r.err == (if s.err.None? then Some(Ctx(ev.reason)) else s.err) && r.done == s.done
    ensures ev.IndexErrReceived? ==> r.err == Some(s.pending[ev.j]) && r.done == s.done
  {
    match ev
    case Start => s.(started := true)
    case StopCheck => if s.started then s.(stopping := s.stopping + 1) else s
    case StopSelected(sel) =>
      s.(stopping := s.stopping - 1, done := s.done || sel.SignalSent?)
    case Tick(indexErr) =>
      if indexErr.Some? then s.(pending := s.pending + [indexErr.value]) else s
    case DoneReceived => Exit(s.(done := false))
    case CtxDone(reason) =>
      Exit(if s.err.None? then s.(err := Some(Ctx(reason))) else s)
    case IndexErrReceived(j) => Exit(s.(err := Some(s.pending[j])))
  }

  /** Each event of `evs` is enabled when it happens. */
  predicate IsRun(s: State, evs: seq<Event>)
    decreases |evs|
  {
    evs == [] || (Enabled(s, evs[0]) && IsRun(Next(s, evs[0]), evs[1..]))
  }

  /** The state after a run. */
  function Run(s: State, evs: seq<Event>): State
    requires IsRun(s, evs)
    decreases |evs|
  {
    if evs == [] then s else Run(Next(s, evs[0]), evs[1..])
  }

  /** Index calls only wait on the errs channel of a running loop. */
  predicate Inv(s: State) {
    !s.started ==> s.pending == []
  }

  lemma {:induction false} RunKeepsInv(s: State, evs: seq<Event>)
    requires Inv(s) && IsRun(s, evs)
    ensures Inv(Run(s, evs))
    decreases |evs|
  {
    if evs != [] {
      RunKeepsInv(Next(s, evs[0]), evs[1..]);
    }
  }

  /** Once an error is recorded it is never cleared: later exits replace it
      at most with another error. */
  lemma {:induction false} ErrIsNeverCleared(s: State, evs: seq<Event>)
    requires IsRun(s, evs)
    requires s.err.Some?
    ensures Run(s, evs).err.Some?
    decreases |evs|
  {
    if evs != [] {
      ErrIsNeverCleared(Next(s, evs[0]), evs[1..]);
    }
  }

  /** No error is invented: the recorded error, and every error waiting to
      be received, is the one the run started with, a context error of a
      CtxDone event, or the error of a Tick's index call. */
  lemma {:induction false} ErrorsComeFromEvents(s: State, evs: seq<Event>)
    requires IsRun(s, evs)
    ensures var r := Run(s, evs);
      && (forall e | e in r.pending :: e in s.pending || Tick(Some(e)) in evs)
      && (r.err == s.err
          || (exists e | e in s.pending :: r.err == Some(e))
          || (exists c :: CtxDone(c) in evs && r.err == Some(Ctx(c)))
          || (exists e :: Tick(Some(e)) in evs && r.err == Some(e)))
    decreases |evs|
  {
    if evs != [] {
      var s' := Next(s, evs[0]);
      ErrorsComeFromEvents(s', evs[1..]);
      var r := Run(s, evs);
      assert r == Run(s', evs[1..]);
      assert forall e | e in s'.pending :: e in s.pending || evs[0] == Tick(Some(e));
      assert forall ev | ev in evs[1..] :: ev in evs;
      if r.err == s'.err {
        match evs[0]
        case CtxDone(c) =>
          if s.err.None? { assert CtxDone(c) in evs; }
        case IndexErrReceived(j) =>
          assert s.pending[j] in s.pending;
        case _ =>
      } else if exists e | e in s'.pending :: r.err == Some(e) {
        var e :| e in s'.pending && r.err == Some(e);
        if e !in s.pending {
          assert evs[0] == Tick(Some(e));
        }
      }
    }
  }

  /** From a fresh Indexer, a nil Err() means every loop that has exited
      left through the stop signal: no context error and no index error
      was ever received. */
  lemma {:induction false} NilErrMeansCleanStops(s: State, evs: seq<Event>)
    requires IsRun(s, evs)
    requires Run(s, evs).err.None?
    ensures s.err.None?
    ensures forall ev | ev in evs :: !ev.CtxDone? && !ev.IndexErrReceived?
    decreases |evs|
  {
    if evs != [] {
      var s' := Next(s, evs[0]);
      NilErrMeansCleanStops(s', evs[1..]);
      if s.err.Some? {
        ErrIsNeverCleared(s, evs);
      }
      forall ev | ev in evs ensures !ev.CtxDone? && !ev.IndexErrReceived? {
        if ev != evs[0] {
          assert ev in evs[1..];
        }
      }
    }
  }

  /** One enabled event in front of a run. */
  lemma RunCons(s: State, ev: Event, evs: seq<Event>)
    requires Enabled(s, ev) && IsRun(Next(s, ev), evs)
    ensures IsRun(s, [ev] + evs) && Run(s, [ev] + evs) == Run(Next(s, ev), evs)
  {
    assert ([ev] + evs)[1..] == evs;
  }

  /** A Stop that nothing interleaves with is the one-step Stop: not
      started, it returns nil and changes nothing; started, it either fills
      the empty `done` slot and returns nil, or returns its context's error
      and changes nothing. */
  lemma StopAlone(s: State, sel: StopSelect)
    requires sel.SignalSent? ==> !s.done
    ensures !s.started ==> Next(s, StopCheck) == s
    ensures s.started ==>
      var s' := Next(s, StopCheck);
      && Enabled(s', StopSelected(sel))
      && Next(s', StopSelected(sel)) == (if sel.SignalSent? then s.(done := true) else s)
  {
  }

  /** A stop signal sent while the loop is exiting through its context stays
      in the slot and ends the next loop at once. */
  lemma StaleStopSignal(c: CtxErr)
    ensures var evs := [Start, StopCheck, CtxDone(c), StopSelected(SignalSent), Start, DoneReceived];
      && IsRun(Initial, evs)
      && Run(Initial, evs) == State(false, false, Some(Ctx(c)), [], 0)
  {
    var s1 := Next(Initial, Start);
    var s2 := Next(s1, StopCheck);
    var s3 := Next(s2, CtxDone(c));
    var s4 := Next(s3, StopSelected(SignalSent));
    var s5 := Next(s4, Start);
    var s6 := Next(s5, DoneReceived);
    RunCons(s5, DoneReceived, []);
    RunCons(s4, Start, [DoneReceived]);
    RunCons(s3, StopSelected(SignalSent), [Start, DoneReceived]);
    RunCons(s2, CtxDone(c), [StopSelected(SignalSent), Start, DoneReceived]);
    RunCons(s1, StopCheck, [CtxDone(c), StopSelected(SignalSent), Start, DoneReceived]);
    RunCons(Initial, Start, [StopCheck, CtxDone(c), StopSelected(SignalSent), Start, DoneReceived]);
  }

  /** Two Stop calls on a running loop: both see `started`, the first
      signal ends the loop, and the second Stop, blocked until then, sends
      into the emptied slot and returns nil. `started` is false with a
      signal pending and no error recorded, and the next loop ends at once
      without any Stop call during it. */
  lemma SecondStopLeavesStaleSignal()
    ensures var evs := [Start, StopCheck, StopCheck, StopSelected(SignalSent), DoneReceived, StopSelected(SignalSent)];
      && IsRun(Initial, evs)
      && Run(Initial, evs) == State(false, true, None, [], 0)
    ensures var s := State(false, true, None, [], 0);
      && IsRun(s, [Start, DoneReceived])
      && Run(s, [Start, DoneReceived]) == State(false, false, None, [], 0)
  {
    var s1 := Next(Initial, Start);
    var s2 := Next(s1, StopCheck);
    var s3 := Next(s2, StopCheck);
    var s4 := Next(s3, StopSelected(SignalSent));
    var s5 := Next(s4, DoneReceived);
    var s6 := Next(s5, StopSelected(SignalSent));
    RunCons(s5, StopSelected(SignalSent), []);
    RunCons(s4, DoneReceived, [StopSelected(SignalSent)]);
    RunCons(s3, StopSelected(SignalSent), [DoneReceived, StopSelected(SignalSent)]);
    RunCons(s2, StopCheck, [StopSelected(SignalSent), DoneReceived, StopSelected(SignalSent)]);
    RunCons(s1, StopCheck, [StopCheck, StopSelected(SignalSent), DoneReceived, StopSelected(SignalSent)]);
    RunCons(Initial, Start, [StopCheck, StopCheck, StopSelected(SignalSent), DoneReceived, StopSelected(SignalSent)]);
    var s := State(false, true, None, [], 0);
    RunCons(Next(s, Start), DoneReceived, []);
    RunCons(s, Start, [DoneReceived]);
  }

  // ---------------------------------------------------------------------
  // Start's check-then-act on `started`.
  //
  // As written, Start loads the flag, spawns the loop when it was false,
  // and only then stores true; the loop's deferred store of false can run
  // in between. `loops` counts the loop goroutines alive, `storing` the
  // Start calls that have spawned a loop and not yet stored true.

  datatype Sched = Sched(started: bool, loops: nat, storing: set<nat>)

  datatype Action =
    | Load(caller: nat)   // Start: started.Load(), then `go i.start(ctx)` if it was false
    | Store(caller: nat)  // Start: started.Store(true)
    | CasStart            // corrected Start: one atomic CompareAndSwap(false, true), then spawn
    | LoopExit            // a loop returns: started.Store(false)

  /** One step of the source's Start and loop. */
  function AsWrittenStep(s: Sched, a: Action): Sched {
    match a
    case Load(c) =>
      if c in s.storing || s.started then s
      else Sched(s.started, s.loops + 1, s.storing + {c})
    case Store(c) =>
      if c in s.storing then Sched(true, s.loops, s.storing - {c}) else s
    case CasStart => s
    case LoopExit =>
      if s.loops > 0 then Sched(false, s.loops - 1, s.storing) else s
  }

  function AsWrittenRun(s: Sched, acts: seq<Action>): Sched
    decreases |acts|
  {
    if acts == [] then s else AsWrittenRun(AsWrittenStep(s, acts[0]), acts[1..])
  }

  /** Two Start calls that both load before either stores spawn two loops;
      a loop that exits before its Start stores leaves `started` set with
      no loop running, after which every Start is a no-op. */
  lemma AsWrittenStartRaces()
    ensures AsWrittenRun(Sched(false, 0, {}), [Load(1), Load(2), Store(1), Store(2)]) == Sched(true, 2, {})
    ensures AsWrittenRun(Sched(false, 0, {}), [Load(1), LoopExit, Store(1), Load(2)]) == Sched(true, 0, {})
  {
    var acts := [Load(1), Load(2), Store(1), Store(2)];
    assert acts[1..][1..][1..][1..] == [];
    assert {1, 2} - {1} - {2} == {};
    var acts' := [Load(1), LoopExit, Store(1), Load(2)];
    assert acts'[1..][1..][1..][1..] == [];
  }

  /** One step with Start done as a single atomic compare-and-swap. */
  function CasStep(s: Sched, a: Action): Sched {
    match a
    case CasStart => if s.started then s else Sched(true, s.loops + 1, s.storing)
    case LoopExit => if s.loops > 0 then Sched(false, s.loops - 1, s.storing) else s
    case _ => s
  }

  function CasRun(s: Sched, acts: seq<Action>): Sched
    decreases |acts|
  {
    if acts == [] then s else CasRun(CasStep(s, acts[0]), acts[1..])
  }

  /** With an atomic Start, at any interleaving of Start calls and loop
      exits exactly one loop runs while `started` is set and none
      otherwise. */
  lemma {:induction false} CasStartKeepsOneLoop(s: Sched, acts: seq<Action>)
    requires s.loops == (if s.started then 1 else 0)
    ensures var r := CasRun(s, acts); r.loops == (if r.started then 1 else 0)
    decreases |acts|
  {
    if acts != [] {
      CasStartKeepsOneLoop(CasStep(s, acts[0]), acts[1..]);
    }
  }
}
