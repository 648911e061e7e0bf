/**
 * Flush chains stop: without new provider events every step of the runtime
 * lowers a natural number, across all interleaved chains.
 */
module RuntimeTermination {
  import opened Util
  import opened Contracts
  import opened Transport
  import opened CaptureRuntime

  /** What one flush in flight still has to do: begin, two steps per chunk at most, finish, complete. */
  function Work(f: Flush): nat {
    match f.stage
    case Queued => 2 * MAX_CAPTURE_BATCH_CHUNKS + 3
    case Writing(flight) =>
      if flight.next <= |flight.chunks| then
        2 * (|flight.chunks| - flight.next) + (if flight.writing then 1 else 2)
      else 2
    case Settled(_) => 1
  }

  function HoldsTerminal(b: Buffer): nat {
    if TerminalOf(b.records).Some? then 1 else 0
  }

  /** What a completion can still set off: checks, flushes in flight, deferred sessions, buffered terminals. */
  ghost function Backlog(r: Runtime): nat {
    5 * |r.postPending| + 3 * |r.inFlight| + |r.deferred| + SumOver(r.buffers, HoldsTerminal)
  }

  ghost function Potential(r: Runtime): nat {
    (2 * MAX_CAPTURE_BATCH_CHUNKS + 4) * Backlog(r) + SumOver(r.inFlight, Work)
  }

  /** Flushes in flight never have more chunks than a build returns, and are at most 64. */
  ghost predicate FlightsBounded(r: Runtime) {
    && |r.inFlight| <= MAX_PENDING_FLUSH_SESSIONS
    && forall k <- r.inFlight :: StageBounded(r.inFlight[k].stage)
  }

  ghost predicate StageBounded(stage: Stage) {
    stage.Writing? ==>
      && stage.flight.next <= |stage.flight.chunks| <= MAX_CAPTURE_BATCH_CHUNKS
      && (stage.flight.writing ==> stage.flight.next < |stage.flight.chunks|)
  }

  // ----- starting and releasing flushes -----

  lemma StartFlushBacklog(r: Runtime, k: Key)
    requires k !in r.inFlight
    ensures var r' := StartFlush(r, k);
            Backlog(r') == Backlog(r) + 3 - if TerminalOf(BufferedRecords(r, k)).Some? then 1 else 0
    ensures SumOver(StartFlush(r, k).inFlight, Work) == SumOver(r.inFlight, Work) + 2 * MAX_CAPTURE_BATCH_CHUNKS + 3
  {
    hide SumOver, TerminalOf;
    var f := StartFlush(r, k).inFlight[k];
    SumPut(r.inFlight, Work, k, f);
    assert StartFlush(r, k).inFlight.Keys == r.inFlight.Keys + {k};
    if k in r.buffers {
      SumRemove(r.buffers, HoldsTerminal, k);
    }
    NoTerminalInNothing();
  }

  lemma NoTerminalInNothing()
    ensures TerminalOf([]).None?
  {
  }

  /** With room and no flush of `k` in flight, a forced schedule starts a flush. */
  lemma ForcedScheduleStarts(r: Runtime, k: Key)
    requires k !in r.inFlight && |r.inFlight| < MAX_PENDING_FLUSH_SESSIONS
    ensures ScheduleFlush(r, k, true) == StartFlush(r, k)
  {
    hide TerminalOf, StartFlush;
  }

  lemma DeferBacklog(r: Runtime, k: Key)
    ensures Backlog(r) <= Backlog(DeferTerminal(r, k)) <= Backlog(r) + 1
    ensures DeferTerminal(r, k).inFlight == r.inFlight
  {
    hide SumOver;
  }

  lemma RestoreBacklog(r: Runtime, k: Key, terminal: Record)
    requires terminal.terminal
    ensures var r' := RestoreTerminal(r, k, terminal).0;
            r'.inFlight == r.inFlight && r'.postPending == r.postPending && r'.deferred == r.deferred
    ensures Backlog(RestoreTerminal(r, k, terminal).0) <= Backlog(r) + 1
  {
    hide SumOver, TerminalOf, MarkGap;
    if TerminalOf(BufferedRecords(r, k)).None? {
      var pushed := RestoreTerminal(r, k, terminal).0.buffers;
      if k in r.buffers {
        SumRemove(r.buffers, HoldsTerminal, k);
      }
      if k in pushed {
        SumRemove(pushed, HoldsTerminal, k);
        assert pushed - {k} == r.buffers - {k};
      }
      assert k !in r.buffers ==> r.buffers - {k} == r.buffers;
      assert k !in pushed ==> pushed == r.buffers - {k};
    }
  }

  lemma RestoreUnsentBacklog(r: Runtime, k: Key, f: Flush)
    requires f.stage.Settled?
    ensures var r' := RestoreUnsent(r, k, f);
            && r'.inFlight == r.inFlight && r'.postPending == r.postPending && Backlog(r') <= Backlog(r) + 2
            && (!f.stage.result.NotStarted? ==> r' == r)
  {
    hide SumOver, Backlog, RestoreTerminal, DeferTerminal, TerminalOf;
    var terminal := TerminalOf(f.records);
    if terminal.Some? {
      RestoreBacklog(r, k, terminal.value);
      DeferBacklog(RestoreTerminal(r, k, terminal.value).0, k);
      DeferKeepsChecks(RestoreTerminal(r, k, terminal.value).0, k);
    }
  }

  lemma DeferKeepsChecks(r: Runtime, k: Key)
    ensures DeferTerminal(r, k).postPending == r.postPending
  {
  }

  lemma RemoveFlushBacklog(r: Runtime, k: Key)
    requires k in r.inFlight
    ensures var r' := r.(inFlight := r.inFlight - {k});
            && Backlog(r') == Backlog(r) - 3 && |r'.inFlight| == |r.inFlight| - 1
            && SumOver(r'.inFlight, Work) == SumOver(r.inFlight, Work) - Work(r.inFlight[k])
  {
    hide SumOver, Work;
    SumRemove(r.inFlight, Work, k);
    assert r.inFlight.Keys == (r.inFlight - {k}).Keys + {k};
  }

  /** Releasing a settled flush: at least one less when it restores its terminal, three less otherwise. */
  lemma ReleaseBacklog(r: Runtime, k: Key)
    requires k in r.inFlight && r.inFlight[k].stage.Settled?
    ensures var r' := Release(r, k);
            && r'.inFlight == r.inFlight - {k} && r'.postPending == r.postPending
            && SumOver(r'.inFlight, Work) == SumOver(r.inFlight, Work) - 1
            && |r'.inFlight| == |r.inFlight| - 1
            && Backlog(r') < Backlog(r)
            && (r.inFlight[k].stage.result.FullyDelivered? ==> Backlog(r') == Backlog(r) - 3)
  {
    hide SumOver, RestoreUnsent;
    var f := r.inFlight[k];
    var r1 := if |f.records| > 0 then r.(retained := r.retained - f.bytes) else r;
    RestoreUnsentBacklog(r1, k, f);
    RemoveFlushBacklog(RestoreUnsent(r1, k, f), k);
  }

  lemma {:induction false} FirstDeferredFound(deferred: seq<Key>, pending: set<Key>)
    ensures var first := FirstDeferred(deferred, pending);
            first.Some? ==>
              && first.value in deferred && first.value !in pending
              && |Without(deferred, first.value)| == |deferred| - 1
  {
    if |deferred| > 0 && deferred[0] in pending {
      FirstDeferredFound(deferred[1..], pending);
    }
  }

  /** A completion lowers the backlog, whatever it sets off, and adds at most one flush's work. */
  lemma CompleteBacklog(r: Runtime, k: Key, pick: Option<Key>)
    requires |r.inFlight| <= MAX_PENDING_FLUSH_SESSIONS
    requires k in r.inFlight && r.inFlight[k].stage.Settled? && PickOk(Release(r, k), pick)
    ensures Backlog(Complete(r, k, pick)) < Backlog(r)
    ensures SumOver(Complete(r, k, pick).inFlight, Work) <= SumOver(r.inFlight, Work) + 2 * MAX_CAPTURE_BATCH_CHUNKS + 2
  {
    hide SumOver, Release, StartFlush, ScheduleFlush, FirstDeferred, Without, TerminalOf;
    ReleaseBacklog(r, k);
    var released := Release(r, k);
    if k in released.postPending {
      var checked := released.(postPending := released.postPending - {k});
      ForcedScheduleStarts(checked, k);
      StartFlushBacklog(checked, k);
      assert |checked.postPending| == |released.postPending| - 1;
    } else if r.inFlight[k].stage.result.FullyDelivered? {
      FirstDeferredFound(released.deferred, released.inFlight.Keys);
      var first := FirstDeferred(released.deferred, released.inFlight.Keys);
      if first.Some? {
        var taken := released.(deferred := Without(released.deferred, first.value));
        ForcedScheduleStarts(taken, first.value);
        StartFlushBacklog(taken, first.value);
      } else if pick.Some? {
        ForcedScheduleStarts(released, pick.value);
        StartFlushBacklog(released, pick.value);
      }
    }
  }

  // ----- every internal step -----

  lemma SetStageWork(r: Runtime, k: Key, stage: Stage, t: State)
    requires k in r.inFlight && FlightsBounded(r) && StageBounded(stage)
    requires Work(r.inFlight[k].(stage := stage)) < Work(r.inFlight[k])
    ensures Potential(SetStage(r, k, stage, t)) < Potential(r)
    ensures FlightsBounded(SetStage(r, k, stage, t))
  {
    hide SumOver, Work;
    SumPut(r.inFlight, Work, k, r.inFlight[k].(stage := stage));
    assert |r.inFlight[k := r.inFlight[k].(stage := stage)]| == |r.inFlight|;
  }

  lemma BeginWork(r: Runtime, k: Key, build: Option<seq<seq<Event>>>)
    requires FlightsBounded(r) && Enabled(r, DoBegin(k, build))
    ensures Potential(BeginFlush(r, k, build)) < Potential(r) && FlightsBounded(BeginFlush(r, k, build))
  {
    hide SumOver, MarkGap, EventsFor, FlattenFrom;
    var (t, begun) := Begin(r.transport, k, r.inFlight[k].records, false, build);
    SetStageWork(r, k, if begun.Flying? then Writing(begun.flight) else Settled(begun.result), t);
  }

  lemma WriteWork(r: Runtime, step: Step)
    requires FlightsBounded(r) && Enabled(r, step)
    requires step.DoStartChunk? || step.DoSettleChunk? || step.DoFinish?
    ensures Potential(Do(r, step)) < Potential(r) && FlightsBounded(Do(r, step))
  {
    hide SumOver, MarkGap;
    match step
    case DoStartChunk(k) =>
      assert StageBounded(r.inFlight[k].stage);
      var (t, f) := StartWrite(r.transport, r.inFlight[k].stage.flight);
      SetStageWork(r, k, Writing(f), t);
    case DoSettleChunk(k, ok) =>
      assert StageBounded(r.inFlight[k].stage);
      var (t, f) := SettleWrite(r.transport, r.inFlight[k].stage.flight, ok);
      SetStageWork(r, k, Writing(f), t);
    case DoFinish(k) =>
      var (t, result) := Finish(r.transport, r.inFlight[k].stage.flight);
      SetStageWork(r, k, Settled(result), t);
  }

  lemma CompleteFlights(r: Runtime, k: Key, pick: Option<Key>)
    requires FlightsBounded(r) && Enabled(r, DoComplete(k, pick))
    ensures FlightsBounded(Complete(r, k, pick))
  {
    hide SumOver, Release, StartFlush, ScheduleFlush, FirstDeferred, Without, TerminalOf;
    ReleaseBacklog(r, k);
    var released := Release(r, k);
    ScheduleFlights(released.(postPending := released.postPending - {k}), k, true);
    var first := FirstDeferred(released.deferred, released.inFlight.Keys);
    if first.Some? {
      ScheduleFlights(released.(deferred := Without(released.deferred, first.value)), first.value, true);
    } else if pick.Some? {
      ScheduleFlights(released, pick.value, true);
    }
  }

  lemma ScheduleFlights(r: Runtime, k: Key, force: bool)
    requires FlightsBounded(r)
    ensures FlightsBounded(ScheduleFlush(r, k, force))
  {
    hide TerminalOf, MarkGap, StageBounded;
    var started := StartFlush(r, k);
    if k !in r.inFlight {
      assert started.inFlight.Keys == r.inFlight.Keys + {k};
      QueuedIsBounded();
    }
  }

  lemma QueuedIsBounded()
    ensures StageBounded(Queued)
  {
  }

  /** Without new events, every step lowers the potential. */
  lemma InternalStepLowersPotential(r: Runtime, step: Step)
    requires FlightsBounded(r) && Enabled(r, step) && step.Internal()
    ensures Potential(Do(r, step)) < Potential(r) && FlightsBounded(Do(r, step))
  {
    hide Potential, FlightsBounded, Complete, Release;
    match step
    case DoBegin(k, build) => BeginWork(r, k, build);
    case DoStartChunk(_) => WriteWork(r, step);
    case DoSettleChunk(_, _) => WriteWork(r, step);
    case DoFinish(_) => WriteWork(r, step);
    case DoComplete(k, pick) =>
      CompletePotential(r, k, pick);
      CompleteFlights(r, k, pick);
  }

  lemma CompletePotential(r: Runtime, k: Key, pick: Option<Key>)
    requires FlightsBounded(r) && Enabled(r, DoComplete(k, pick))
    ensures Potential(Complete(r, k, pick)) < Potential(r)
  {
    hide SumOver, Backlog, Complete, Release, StageBounded;
    CompleteBacklog(r, k, pick);
  }

  /** Flush chains terminate: a run without new events has at most `Potential` steps. */
  lemma {:induction false} ChainsTerminate(start: Runtime, steps: seq<Step>)
    requires FlightsBounded(start) && IsRun(start, steps)
    requires forall step <- steps :: step.Internal()
    ensures |steps| + Potential(After(start, steps)) <= Potential(start)
    decreases |steps|
  {
    if |steps| > 0 {
      hide Potential, FlightsBounded, Enabled, Do;
      InternalStepLowersPotential(start, steps[0]);
      ChainsTerminate(Do(start, steps[0]), steps[1..]);
    }
  }
}
