/** Any interleaving of marks and flushes on one transport. */
module TransportRuns {
  import opened Util
  import opened Transport

  datatype System = System(transport: State, flights: map<nat, Flight>)

  datatype Step =
    | DoMark(key: Key)
    | DoBegin(id: nat, key: Key, records: seq<Record>, force: bool, build: Option<seq<seq<Event>>>)
    | DoStartWrite(id: nat)
    | DoSettleWrite(id: nat, ok: bool)
    | DoFinish(id: nat)

  ghost predicate Enabled(s: System, step: Step) {
    match step
    case DoMark(_) => true
    case DoBegin(id, k, records, _, build) =>
      id !in s.flights && (build.Some? ==> ValidBuild(EventsFor(s.transport, k, records), build.value))
    case DoStartWrite(id) =>
      id in s.flights && !s.flights[id].writing && s.flights[id].next < |s.flights[id].chunks|
    case DoSettleWrite(id, _) =>
      && id in s.flights && s.flights[id].writing && s.flights[id].next < |s.flights[id].chunks|
      && s.transport.active > 0
    case DoFinish(id) =>
      id in s.flights && !s.flights[id].writing && s.flights[id].next == |s.flights[id].chunks|
  }

  ghost function Do(s: System, step: Step): System
    requires Enabled(s, step)
  {
    match step
    case DoMark(k) => System(MarkGap(s.transport, k), s.flights)
    case DoBegin(id, k, records, force, build) =>
      var (t, begun) := Begin(s.transport, k, records, force, build);
      System(t, if begun.Flying? then s.flights[id := begun.flight] else s.flights)
    case DoStartWrite(id) =>
      var (t, f) := StartWrite(s.transport, s.flights[id]);
      System(t, s.flights[id := f])
    case DoSettleWrite(id, ok) =>
      var (t, f) := SettleWrite(s.transport, s.flights[id], ok);
      System(t, s.flights[id := f])
    case DoFinish(id) =>
      System(Finish(s.transport, s.flights[id]).0, s.flights - {id})
  }

  function Writing(flights: map<nat, Flight>): set<nat> {
    set id | id in flights && flights[id].writing
  }

  /** The counter of active writes is the number of writes in flight, and never above four. */
  ghost predicate SystemOk(s: System) {
    && StateOk(s.transport)
    && (forall id <- s.flights :: FlightOk(s.transport.generation, s.flights[id]))
    && s.transport.active == |Writing(s.flights)| <= MAX_CONCURRENT_WRITES
  }

  ghost predicate Later(t: State, t': State) {
    StateOk(t') && t'.generation >= t.generation && t'.overflow == t.overflow
  }

  lemma WritingPut(flights: map<nat, Flight>, id: nat, f: Flight)
    ensures f.writing ==> Writing(flights[id := f]) == Writing(flights) + {id}
    ensures !f.writing ==> Writing(flights[id := f]) == Writing(flights) - {id}
  {
  }

  lemma WritingRemove(flights: map<nat, Flight>, id: nat)
    ensures Writing(flights - {id}) == Writing(flights) - {id}
  {
  }

  lemma OthersStayOk(s: System, t': State)
    requires SystemOk(s) && Later(s.transport, t')
    ensures forall id <- s.flights :: FlightOk(t'.generation, s.flights[id])
  {
    hide StateOk, ValidBuild;
  }

  lemma PutFlight(s: System, t': State, id: nat, f: Flight)
    requires SystemOk(s) && Later(s.transport, t') && FlightOk(t'.generation, f)
    requires id in s.flights ==> !s.flights[id].writing || !f.writing
    requires t'.active + (if id in s.flights && s.flights[id].writing then 1 else 0)
          == s.transport.active + (if f.writing then 1 else 0)
    requires t'.active <= MAX_CONCURRENT_WRITES
    ensures SystemOk(System(t', s.flights[id := f]))
  {
    hide StateOk, FlightOk;
    OthersStayOk(s, t');
    WritingPut(s.flights, id, f);
  }

  lemma StepKeepsSystemOk(s: System, step: Step)
    requires SystemOk(s) && Enabled(s, step)
    ensures SystemOk(Do(s, step))
  {
    hide MarkGap, Begin, StartWrite, SettleWrite, Finish, StateOk, ValidBuild, EventsFor, FlightOk;
    match step
    case DoMark(k) =>
      MarkOk(s.transport, k);
      OthersStayOk(s, MarkGap(s.transport, k));
    case DoBegin(id, k, records, force, build) =>
      BeginOk(s.transport, k, records, force, build);
      var (t, begun) := Begin(s.transport, k, records, force, build);
      OthersStayOk(s, t);
      if begun.Flying? {
        PutFlight(s, t, id, begun.flight);
      }
    case DoStartWrite(id) =>
      StartWriteOk(s.transport, s.flights[id]);
      var (t, f) := StartWrite(s.transport, s.flights[id]);
      PutFlight(s, t, id, f);
    case DoSettleWrite(id, ok) =>
      SettleWriteOk(s.transport, s.flights[id], ok);
      var (t, f) := SettleWrite(s.transport, s.flights[id], ok);
      PutFlight(s, t, id, f);
    case DoFinish(id) =>
      FinishNeeds(s, id);
      FinishOk(s.transport, s.flights[id]);
      OthersStayOk(s, Finish(s.transport, s.flights[id]).0);
      WritingRemove(s.flights, id);
  }

  lemma FinishNeeds(s: System, id: nat)
    requires Enabled(s, DoFinish(id))
    ensures s.flights[id].next == |s.flights[id].chunks| && !s.flights[id].writing
  {
  }

  // ----- runs -----

  /** A run: every step enabled where it is taken. */
  ghost predicate IsRun(start: System, steps: seq<Step>)
    decreases |steps|
  {
    |steps| > 0 ==> Enabled(start, steps[0]) && IsRun(Do(start, steps[0]), steps[1..])
  }

  ghost function After(start: System, steps: seq<Step>): System
    requires IsRun(start, steps)
    decreases |steps|
  {
    if |steps| == 0 then start else After(Do(start, steps[0]), steps[1..])
  }

  /** In every interleaving the permit counter is exact and at most four writes run at once. */
  lemma {:induction false} RunKeepsSystemOk(start: System, steps: seq<Step>)
    requires SystemOk(start) && IsRun(start, steps)
    ensures SystemOk(After(start, steps))
    decreases |steps|
  {
    if |steps| > 0 {
      StepKeepsSystemOk(start, steps[0]);
      RunKeepsSystemOk(Do(start, steps[0]), steps[1..]);
    }
  }

  /**
   * The step ends a fully delivered flush of `k` that read a gap stamped `g` or
   * later and carried the notice of it.
   */
  ghost predicate Reports(s: System, step: Step, k: Key, g: nat) {
    && step.DoFinish? && step.id in s.flights
    && var f := s.flights[step.id];
    && f.key == k
    && f.started > 0 && f.delivered == |f.chunks|
    && f.seen.Some? && f.seen.value >= g
    && |f.events| > 0 && f.events[0] == GapNotice(k)
  }

  lemma GapSurvivesStep(s: System, step: Step, k: Key, g: nat)
    requires SystemOk(s) && Enabled(s, step) && PendingSince(s.transport, k, g)
    ensures PendingSince(Do(s, step).transport, k, g) || Reports(s, step, k, g)
  {
    hide MarkGap, Finish, StateOk, ValidBuild, EventsFor;
    match step
    case DoMark(marked) => MarkKeepsPending(s.transport, marked, k, g);
    case DoBegin(_, begun, _, _, _) => MarkKeepsPending(s.transport, begun, k, g);
    case DoStartWrite(_) =>
    case DoSettleWrite(_, _) =>
    case DoFinish(id) =>
      assert FlightOk(s.transport.generation, s.flights[id]);
      FinishKeepsPending(s.transport, s.flights[id], k, g);
  }

  /** Some step of the run reports a gap of `k` stamped `g` or later. */
  ghost predicate Reported(start: System, steps: seq<Step>, k: Key, g: nat)
    requires IsRun(start, steps)
    decreases |steps|
  {
    |steps| > 0 && (Reports(start, steps[0], k, g) || Reported(Do(start, steps[0]), steps[1..], k, g))
  }

  /** Gap safety: in every run a pending gap stays pending until a flush that read it is fully delivered. */
  lemma {:induction false} GapSurvivesRun(start: System, steps: seq<Step>, k: Key, g: nat)
    requires SystemOk(start) && IsRun(start, steps) && PendingSince(start.transport, k, g)
    ensures PendingSince(After(start, steps).transport, k, g) || Reported(start, steps, k, g)
    decreases |steps|
  {
    if |steps| > 0 {
      StepKeepsSystemOk(start, steps[0]);
      GapSurvivesStep(start, steps[0], k, g);
      if PendingSince(Do(start, steps[0]).transport, k, g) {
        GapSurvivesRun(Do(start, steps[0]), steps[1..], k, g);
      }
    }
  }

  /** A mark made after a flush read its stamp is newer than that stamp. */
  lemma MarkOutdatesFlights(s: System, k: Key, id: nat)
    requires SystemOk(s) && id in s.flights && k in MarkGap(s.transport, k).pending && ValidKey(k)
    requires k in s.transport.pending || |s.transport.pending| < MAX_PENDING_GAPS
    ensures s.flights[id].seen != Some(MarkGap(s.transport, k).pending[k])
    ensures PendingSince(MarkGap(s.transport, k), k, s.transport.generation + 1)
  {
    assert FlightOk(s.transport.generation, s.flights[id]);
  }

  lemma PoisonSticksStep(s: System, step: Step)
    requires Enabled(s, step) && s.transport.poisoned
    ensures Do(s, step).transport.poisoned
  {
  }

  lemma {:induction false} PoisonSticks(start: System, steps: seq<Step>)
    requires IsRun(start, steps) && start.transport.poisoned
    ensures After(start, steps).transport.poisoned
    decreases |steps|
  {
    if |steps| > 0 {
      PoisonSticksStep(start, steps[0]);
      PoisonSticks(Do(start, steps[0]), steps[1..]);
    }
  }

  /**
   * The windowed transport forgets no valid mark: after it, the window has a
   * pending gap in every later state, unless a flush that read the mark was
   * fully delivered; once past the cap, for ever.
   */
  lemma WindowedForgetsNoMark(s: System, k: Key, steps: seq<Step>)
    requires SystemOk(s) && s.transport.overflow.Poison? && ValidKey(k)
    requires IsRun(Do(s, DoMark(k)), steps)
    ensures var marked := Do(s, DoMark(k));
            || HasPendingGap(After(marked, steps).transport, k)
            || (!marked.transport.poisoned && Reported(marked, steps, k, s.transport.generation + 1))
  {
    var marked := Do(s, DoMark(k));
    WindowedMarkRemembered(s.transport, k);
    StepKeepsSystemOk(s, DoMark(k));
    hide SystemOk;
    if marked.transport.poisoned {
      PoisonSticks(marked, steps);
    } else {
      assert PendingSince(marked.transport, k, s.transport.generation + 1);
      GapSurvivesRun(marked, steps, k, s.transport.generation + 1);
    }
  }
}
