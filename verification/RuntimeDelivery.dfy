/** When a flush is reported delivered, and what it leaves. */
module RuntimeDelivery {
  // The answers of one flush, from the moment it is queued to the result it
  // settles with, whatever else happens in between.

  import opened Util
  import opened Transport
  import opened CaptureRuntime
  import opened RuntimeHistory
  import opened RuntimeRuns
  import RuntimeGaps

  // ----- what the outside has to answer -----

  /** Nothing waits in the flush of `k`, and no gap of it has to be told. */
  predicate NothingToSend(r: Runtime, k: Key) {
    k in r.inFlight && |r.inFlight[k].records| == 0 && k !in r.transport.pending
  }

  predicate BuildFails(r: Runtime, step: Step, k: Key) {
    step.DoBegin? && step.key == k && step.build.None? && !NothingToSend(r, k)
  }

  predicate Granted(r: Runtime, step: Step, k: Key) {
    step.DoStartChunk? && step.key == k && r.transport.active < 4
  }

  /** The step is not one at which the flush of `k` loses a chunk: unbuilt, without a permit, or not confirmed. */
  predicate GoesWell(r: Runtime, step: Step, k: Key) {
    && !BuildFails(r, step, k)
    && (step.DoStartChunk? && step.key == k ==> r.transport.active < 4)
    && (step.DoSettleChunk? && step.key == k ==> step.ok)
  }

  ghost predicate AllGoesWell(start: Runtime, steps: seq<Step>, k: Key)
    requires IsRun(start, steps)
    decreases |steps|
  {
    |steps| > 0 ==> GoesWell(start, steps[0], k) && AllGoesWell(Do(start, steps[0]), steps[1..], k)
  }

  ghost predicate SomeGranted(start: Runtime, steps: seq<Step>, k: Key)
    requires IsRun(start, steps)
    decreases |steps|
  {
    |steps| > 0 && (Granted(start, steps[0], k) || SomeGranted(Do(start, steps[0]), steps[1..], k))
  }

  ghost predicate SomeBuildFails(start: Runtime, steps: seq<Step>, k: Key)
    requires IsRun(start, steps)
    decreases |steps|
  {
    |steps| > 0 && (BuildFails(start, steps[0], k) || SomeBuildFails(Do(start, steps[0]), steps[1..], k))
  }

  // ----- the state of the flush tells what happened to it -----

  ghost predicate Tracks(r: Runtime, k: Key, well: bool, granted: bool, unbuilt: bool) {
    k in r.inFlight &&
    match r.inFlight[k].stage
    case Queued => well && !granted && !unbuilt
    case Writing(f) => (well <==> f.delivered == f.next) && (granted <==> f.started > 0 || f.writing) && !unbuilt
    case Settled(result) => (result.FullyDelivered? <==> well) && (result.NotStarted? <==> !well && !granted && !unbuilt)
  }

  /** The flush in flight of `k` is not touched. */
  ghost predicate SameFlight(r: Runtime, r': Runtime, k: Key) {
    k in r.inFlight ==> k in r'.inFlight && r'.inFlight[k] == r.inFlight[k]
  }

  lemma ScheduleKeepsFlight(r: Runtime, j: Key, force: bool, k: Key)
    ensures SameFlight(r, ScheduleFlush(r, j, force), k)
  {
    hide TerminalOf, MarkGap;
  }

  lemma AppendKeepsFlight(r: Runtime, x: Record, k: Key)
    ensures SameFlight(r, Append(r, x), k)
  {
    hide ScheduleFlush, MarkGap;
    ScheduleKeepsFlight(r.(transport := r.transport.Noting(Took(x))), x.key, false, k);
  }

  lemma ReleaseKeepsFlight(r: Runtime, j: Key, k: Key)
    requires j in r.inFlight && r.inFlight[j].stage.Settled? && j != k
    ensures SameFlight(r, Release(r, j), k)
  {
    hide TerminalOf, MarkGap;
  }

  lemma CompleteKeepsFlight(r: Runtime, j: Key, pick: Option<Key>, k: Key)
    requires j in r.inFlight && r.inFlight[j].stage.Settled? && j != k
    ensures SameFlight(r, Complete(r, j, pick), k)
  {
    hide ScheduleFlush, Release, FirstDeferred, Without;
    ReleaseKeepsFlight(r, j, k);
    var released := Release(r, j);
    ScheduleKeepsFlight(released.(postPending := released.postPending - {j}), j, true, k);
    var first := FirstDeferred(released.deferred, released.inFlight.Keys);
    if first.Some? {
      ScheduleKeepsFlight(released.(deferred := Without(released.deferred, first.value)), first.value, true, k);
    }
    if pick.Some? {
      ScheduleKeepsFlight(released, pick.value, true, k);
    }
  }

  predicate Completes(step: Step, k: Key) {
    step.DoComplete? && step.key == k
  }

  /** A step that is none of the flush's own. */
  predicate Elsewhere(step: Step, k: Key) {
    match step
    case DoAppend(_) => true
    case DoSchedule(_, _) => true
    case DoBegin(j, _) => j != k
    case DoStartChunk(j) => j != k
    case DoSettleChunk(j, _) => j != k
    case DoFinish(j) => j != k
    case DoComplete(j, _) => j != k
  }

  lemma ElsewhereKeepsFlight(r: Runtime, step: Step, k: Key)
    requires Enabled(r, step) && Elsewhere(step, k)
    ensures SameFlight(r, Do(r, step), k)
  {
    hide ScheduleFlush, Append, Complete, Release, Begin, StartWrite, SettleWrite, Finish, PickOk, ValidBuild;
    match step
    case DoAppend(x) => AppendKeepsFlight(r, x, k);
    case DoSchedule(j, force) => ScheduleKeepsFlight(r, j, force, k);
    case DoComplete(j, pick) => CompleteKeepsFlight(r, j, pick, k);
    case _ =>
  }

  /** What the invariants say of one flush in flight. */
  lemma FlushFacts(r: Runtime, k: Key)
    requires Reachable(r) && k in r.inFlight
    ensures r.transport.overflow.Drop? && !r.transport.poisoned
    ensures forall x <- r.inFlight[k].records :: x.key == k
    ensures r.inFlight[k].stage.Writing? ==>
      var f := r.inFlight[k].stage.flight;
      f.key == k && f.records == r.inFlight[k].records
      && f.delivered <= f.started <= f.next <= |f.chunks| && |f.chunks| > 0 && (f.writing ==> f.next < |f.chunks|)
  {
    hide Reachable, LogOk, HandedRecords, Taken, Unaccounted, ConfirmedRecords, FlattenFrom, BufferOk;
    ReachableHistoryOk(r);
    assert FlushOk(k, r.inFlight[k], r.transport);
    RuntimeGaps.ReachableGapsOk(r);
  }

  lemma OwnStepTracks(r: Runtime, step: Step, k: Key, well: bool, granted: bool, unbuilt: bool)
    requires Reachable(r) && Enabled(r, step) && !Elsewhere(step, k) && !Completes(step, k)
    requires Tracks(r, k, well, granted, unbuilt)
    ensures Tracks(Do(r, step), k, well && GoesWell(r, step, k), granted || Granted(r, step, k), unbuilt || BuildFails(r, step, k))
  {
    hide Reachable, ValidBuild, MarkGap;
    FlushFacts(r, k);
  }

  lemma StepTracks(r: Runtime, step: Step, k: Key, well: bool, granted: bool, unbuilt: bool)
    requires Reachable(r) && Enabled(r, step) && !Completes(step, k)
    requires Tracks(r, k, well, granted, unbuilt)
    ensures Tracks(Do(r, step), k, well && GoesWell(r, step, k), granted || Granted(r, step, k), unbuilt || BuildFails(r, step, k))
  {
    hide Reachable, Enabled, Do;
    if Elsewhere(step, k) {
      ElsewhereKeepsFlight(r, step, k);
    } else {
      OwnStepTracks(r, step, k, well, granted, unbuilt);
    }
  }

  lemma {:induction false} RunTracks(r: Runtime, steps: seq<Step>, k: Key, well: bool, granted: bool, unbuilt: bool)
    requires Reachable(r) && IsRun(r, steps) && forall step <- steps :: !Completes(step, k)
    requires Tracks(r, k, well, granted, unbuilt)
    ensures Tracks(After(r, steps), k, well && AllGoesWell(r, steps, k), granted || SomeGranted(r, steps, k),
                   unbuilt || SomeBuildFails(r, steps, k))
    decreases |steps|
  {
    hide Reachable, Enabled, Do, Tracks, GoesWell, Granted, BuildFails;
    if |steps| > 0 {
      var next := Do(r, steps[0]);
      StepTracks(r, steps[0], k, well, granted, unbuilt);
      ReachStep(r, steps[0]);
      RunTracks(next, steps[1..], k, well && GoesWell(r, steps[0], k), granted || Granted(r, steps[0], k),
                unbuilt || BuildFails(r, steps[0], k));
    }
  }

  /**
   * How a flush ends, over any run in which it goes from queued to settled:
   * delivered exactly when its chunks could be built, or there was nothing to
   * send, and every one of them got a permit and was confirmed; not started
   * exactly when they could be built and none got a permit; a failed attempt
   * otherwise.
   */
  lemma SettledAs(r: Runtime, steps: seq<Step>, k: Key)
    requires Reachable(r) && IsRun(r, steps) && forall step <- steps :: !Completes(step, k)
    requires k in r.inFlight && r.inFlight[k].stage.Queued?
    ensures k in After(r, steps).inFlight
    ensures After(r, steps).inFlight[k].stage.Settled? ==>
      var result := After(r, steps).inFlight[k].stage.result;
      && (result.FullyDelivered? <==> AllGoesWell(r, steps, k))
      && (result.NotStarted? <==>
            !AllGoesWell(r, steps, k) && !SomeGranted(r, steps, k) && !SomeBuildFails(r, steps, k))
  {
    hide Reachable, IsRun, After, AllGoesWell, SomeGranted, SomeBuildFails;
    RunTracks(r, steps, k, true, false, false);
  }

  // ----- what a flush that goes well notes -----

  /** How often a gap of `k` was marked. */
  function Marks(h: History, k: Key): nat {
    match h
    case Start => 0
    case Then(past, note) => Marks(past, k) + if note == Marked(k) then 1 else 0
  }

  /**
   * A flush going well marks nothing: it hands its chunks over, each is
   * confirmed, and its last note is the delivery of all its records.
   */
  lemma WellNotes(r: Runtime, step: Step, k: Key)
    requires Reachable(r) && Enabled(r, step) && !Elsewhere(step, k) && !Completes(step, k)
    requires Tracks(r, k, true, true, false) || Tracks(r, k, true, false, false)
    requires GoesWell(r, step, k)
    ensures var log, log' := r.transport.log, Do(r, step).transport.log;
            match step
            case DoBegin(_, _) => log' == log
            case DoStartChunk(_) =>
              var f := r.inFlight[k].stage.flight;
              log' == Then(log, Handed(f.chunks[f.next]))
            case DoSettleChunk(_, _) =>
              var f := r.inFlight[k].stage.flight;
              log' == Then(log, Confirmed(f.chunks[f.next]))
            case DoFinish(_) =>
              && log'.Then? && log'.past == log && log'.note.Delivered? && log'.note.records == r.inFlight[k].records
            case _ => true
  {
    hide Reachable, ValidBuild, MarkGap;
    FlushFacts(r, k);
  }

  // ----- and its gap -----

  /** Unless `k` was marked, its gap is as it was. */
  ghost predicate KeepsGap(t: State, t': State, k: Key) {
    && Marks(t'.log, k) >= Marks(t.log, k)
    && (Marks(t'.log, k) == Marks(t.log, k) ==> Get(t'.pending, k) == Get(t.pending, k))
  }

  lemma KeepsTrans(s: State, t: State, u: State, k: Key)
    requires KeepsGap(s, t, k) && KeepsGap(t, u, k)
    ensures KeepsGap(s, u, k)
  {
    hide Marks;
  }

  lemma MarkKeepsGap(t: State, j: Key, k: Key)
    ensures KeepsGap(t, MarkGap(t, j), k)
  {
    hide ValidKey;
  }

  lemma ScheduleKeepsGap(r: Runtime, j: Key, force: bool, k: Key)
    ensures KeepsGap(r.transport, ScheduleFlush(r, j, force).transport, k)
  {
    hide ScheduleFlush, MarkGap;
    RuntimeGaps.ScheduleMarks(r, j, force);
    MarkKeepsGap(r.transport, j, k);
  }

  lemma AppendKeepsGap(r: Runtime, x: Record, k: Key)
    ensures KeepsGap(r.transport, Append(r, x).transport, k)
  {
    hide ScheduleFlush, MarkGap, KeepsGap, Admit;
    var r0 := r.(transport := r.transport.Noting(Took(x)));
    var overfull := Overfull(r0, x.key, x.bytes);
    var r1 := if overfull then ScheduleFlush(r0, x.key, false) else r0;
    TookKeepsGap(r.transport, x, k);
    ScheduleKeepsGap(r0, x.key, false, k);
    if overfull {
      KeepsTrans(r.transport, r0.transport, r1.transport, k);
    }
    var buffer := if !overfull && x.key in r1.buffers then r1.buffers[x.key] else Buffer([], 0);
    AdmitKeepsGap(r1, x, buffer, k);
    KeepsTrans(r.transport, r1.transport, Admit(r1, x, buffer).transport, k);
  }

  lemma TookKeepsGap(t: State, x: Record, k: Key)
    ensures KeepsGap(t, t.Noting(Took(x)), k) && KeepsGap(t, t, k)
  {
  }

  lemma AdmitKeepsGap(r: Runtime, x: Record, buffer: Buffer, k: Key)
    ensures KeepsGap(r.transport, Admit(r, x, buffer).transport, k)
  {
    hide MarkGap;
    MarkKeepsGap(r.transport, x.key, k);
  }

  lemma ReleaseKeepsGap(r: Runtime, j: Key, k: Key)
    requires j in r.inFlight && r.inFlight[j].stage.Settled?
    ensures KeepsGap(r.transport, Release(r, j).transport, k)
  {
    hide MarkGap, TerminalOf, KeepsGap, DeferTerminal;
    TookKeepsGap(r.transport, Record(j, 0, 0, false), k);
    var t1 := MarkGap(r.transport, j);
    MarkKeepsGap(r.transport, j, k);
    MarkKeepsGap(t1, j, k);
    KeepsTrans(r.transport, t1, MarkGap(t1, j), k);
    ReleaseMarks(r, j);
  }

  lemma ReleaseMarks(r: Runtime, j: Key)
    requires j in r.inFlight && r.inFlight[j].stage.Settled?
    ensures var t := r.transport;
            Release(r, j).transport == t || Release(r, j).transport == MarkGap(t, j)
            || Release(r, j).transport == MarkGap(MarkGap(t, j), j)
  {
    hide MarkGap, TerminalOf;
  }

  lemma CompleteKeepsGap(r: Runtime, j: Key, pick: Option<Key>, k: Key)
    requires j in r.inFlight && r.inFlight[j].stage.Settled?
    ensures KeepsGap(r.transport, Complete(r, j, pick).transport, k)
  {
    hide ScheduleFlush, Release, FirstDeferred, Without, KeepsGap;
    ReleaseKeepsGap(r, j, k);
    var released := Release(r, j);
    var checked := released.(postPending := released.postPending - {j});
    ScheduleKeepsGap(checked, j, true, k);
    KeepsTrans(r.transport, released.transport, ScheduleFlush(checked, j, true).transport, k);
    var first := FirstDeferred(released.deferred, released.inFlight.Keys);
    if first.Some? {
      var taken := released.(deferred := Without(released.deferred, first.value));
      ScheduleKeepsGap(taken, first.value, true, k);
      KeepsTrans(r.transport, released.transport, ScheduleFlush(taken, first.value, true).transport, k);
    }
    if pick.Some? {
      ScheduleKeepsGap(released, pick.value, true, k);
      KeepsTrans(r.transport, released.transport, ScheduleFlush(released, pick.value, true).transport, k);
    }
  }

  lemma FlightKeepsGap(t: State, f: Flight, ok: bool, k: Key)
    ensures f.next < |f.chunks| && !f.writing ==> KeepsGap(t, StartWrite(t, f).0, k)
    ensures f.next < |f.chunks| && f.writing && t.active > 0 ==> KeepsGap(t, SettleWrite(t, f, ok).0, k)
    ensures f.next == |f.chunks| && !f.writing && f.key != k ==> KeepsGap(t, Finish(t, f).0, k)
  {
    MarkKeepsGap(t, f.key, k);
    hide MarkGap;
  }

  lemma ElsewhereKeepsGap(r: Runtime, step: Step, k: Key)
    requires Reachable(r) && Enabled(r, step) && Elsewhere(step, k)
    ensures KeepsGap(r.transport, Do(r, step).transport, k)
  {
    hide Reachable, ScheduleFlush, Append, Complete, Release, StartWrite, SettleWrite, Finish, PickOk, ValidBuild, KeepsGap, MarkGap;
    TookKeepsGap(r.transport, Record(k, 0, 0, false), k);
    match step
    case DoAppend(x) => AppendKeepsGap(r, x, k);
    case DoSchedule(j, force) => ScheduleKeepsGap(r, j, force, k);
    case DoBegin(j, _) => MarkKeepsGap(r.transport, j, k);
    case DoStartChunk(j) => FlightKeepsGap(r.transport, r.inFlight[j].stage.flight, false, k);
    case DoSettleChunk(j, ok) => FlightKeepsGap(r.transport, r.inFlight[j].stage.flight, ok, k);
    case DoFinish(j) =>
      FlushFacts(r, j);
      FlightKeepsGap(r.transport, r.inFlight[j].stage.flight, false, k);
    case DoComplete(j, pick) => CompleteKeepsGap(r, j, pick, k);
  }

  /** The stamp the flush read is the one pending; once it is delivered none is. */
  ghost predicate Fresh(r: Runtime, k: Key) {
    k in r.inFlight &&
    match r.inFlight[k].stage
    case Queued => true
    case Writing(f) => Get(r.transport.pending, k) == f.seen
    case Settled(result) => result.FullyDelivered? ==> k !in r.transport.pending
  }

  lemma StepFresh(r: Runtime, step: Step, k: Key)
    requires Reachable(r) && Enabled(r, step) && !Completes(step, k) && Fresh(r, k)
    ensures Marks(Do(r, step).transport.log, k) == Marks(r.transport.log, k) ==> Fresh(Do(r, step), k)
  {
    hide Reachable, ValidBuild, MarkGap;
    if Elsewhere(step, k) {
      hide Enabled, Do;
      ElsewhereKeepsFlight(r, step, k);
      ElsewhereKeepsGap(r, step, k);
    } else {
      OwnStepFresh(r, step, k);
    }
  }

  lemma OwnStepFresh(r: Runtime, step: Step, k: Key)
    requires Reachable(r) && Enabled(r, step) && !Elsewhere(step, k) && !Completes(step, k) && Fresh(r, k)
    ensures Marks(Do(r, step).transport.log, k) == Marks(r.transport.log, k) ==> Fresh(Do(r, step), k)
  {
    hide Reachable, ValidBuild, MarkGap;
    FlushFacts(r, k);
    MarkNotes(r.transport, k);
  }

  lemma MarkNotes(t: State, k: Key)
    ensures Marks(MarkGap(t, k).log, k) == Marks(t.log, k) + 1
  {
  }

  lemma {:induction false} MarksGrow(r: Runtime, steps: seq<Step>, k: Key)
    requires Reachable(r) && IsRun(r, steps) && forall step <- steps :: !Completes(step, k)
    ensures Marks(After(r, steps).transport.log, k) >= Marks(r.transport.log, k)
    decreases |steps|
  {
    hide Reachable, Enabled, Do, Marks;
    if |steps| > 0 {
      StepMarks(r, steps[0], k);
      ReachStep(r, steps[0]);
      MarksGrow(Do(r, steps[0]), steps[1..], k);
    }
  }

  lemma StepMarks(r: Runtime, step: Step, k: Key)
    requires Reachable(r) && Enabled(r, step) && !Completes(step, k)
    ensures Marks(Do(r, step).transport.log, k) >= Marks(r.transport.log, k)
  {
    hide Reachable, ValidBuild, MarkGap;
    if Elsewhere(step, k) {
      hide Enabled, Do;
      ElsewhereKeepsGap(r, step, k);
    } else {
      OwnStepMarks(r, step, k);
    }
  }

  lemma OwnStepMarks(r: Runtime, step: Step, k: Key)
    requires Reachable(r) && Enabled(r, step) && !Elsewhere(step, k) && !Completes(step, k)
    ensures Marks(Do(r, step).transport.log, k) >= Marks(r.transport.log, k)
  {
    hide Reachable, ValidBuild, MarkGap;
    FlushFacts(r, k);
    MarkNotes(r.transport, k);
  }

  /** Unless the session was marked meanwhile, a delivered flush leaves no gap of it pending. */
  lemma {:induction false} DeliveredClears(r: Runtime, steps: seq<Step>, k: Key)
    requires Reachable(r) && IsRun(r, steps) && (forall step <- steps :: !Completes(step, k)) && Fresh(r, k)
    ensures Marks(After(r, steps).transport.log, k) >= Marks(r.transport.log, k)
    ensures Marks(After(r, steps).transport.log, k) == Marks(r.transport.log, k) ==> Fresh(After(r, steps), k)
    decreases |steps|
  {
    hide Reachable, Enabled, Do, Fresh, Marks;
    if |steps| > 0 {
      StepFresh(r, steps[0], k);
      StepMarks(r, steps[0], k);
      ReachStep(r, steps[0]);
      if Marks(Do(r, steps[0]).transport.log, k) == Marks(r.transport.log, k) {
        DeliveredClears(Do(r, steps[0]), steps[1..], k);
      } else {
        MarksGrow(Do(r, steps[0]), steps[1..], k);
      }
    }
  }

  /** A flush that settles delivered leaves no gap of its session pending, unless one was marked after it was queued. */
  lemma DeliveredLeavesNoGap(r: Runtime, steps: seq<Step>, k: Key)
    requires Reachable(r) && IsRun(r, steps) && forall step <- steps :: !Completes(step, k)
    requires k in r.inFlight && r.inFlight[k].stage.Queued?
    requires k in After(r, steps).inFlight && After(r, steps).inFlight[k].stage == Settled(FullyDelivered)
    ensures k in After(r, steps).transport.pending ==> Marks(After(r, steps).transport.log, k) > Marks(r.transport.log, k)
  {
    hide Reachable, IsRun, After, Marks;
    DeliveredClears(r, steps, k);
  }
}
