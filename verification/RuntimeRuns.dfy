/** The main results about the plugin runtime. */
module RuntimeRuns {
  // Over every reachable state: what became of each record, and that the runtime
  // comes to rest when no event arrives.

  import opened Util
  import opened Transport
  import opened CaptureRuntime
  import opened RuntimeHistory
  import RuntimeTables
  import RuntimeSafety
  import RuntimeBytes
  import RuntimeTermination

  lemma StepKeepsHistoryOk(r: Runtime, step: Step)
    requires HistoryOk(r) && Enabled(r, step)
    ensures HistoryOk(Do(r, step))
  {
    hide CoreOk, HeldBut, Append, ScheduleFlush, BeginFlush, StartChunk, SettleChunk, FinishFlush, Complete;
    match step
    case DoAppend(x) => RuntimeSafety.AppendOk(r, x);
    case DoSchedule(k, force) => RuntimeTables.ScheduleOk(r, k, force, None);
    case DoBegin(k, build) => RuntimeSafety.BeginStepOk(r, k, build);
    case DoStartChunk(k) => RuntimeSafety.StartChunkOk(r, k);
    case DoSettleChunk(k, ok) => RuntimeSafety.SettleChunkOk(r, k, ok);
    case DoFinish(k) => RuntimeSafety.FinishStepOk(r, k);
    case DoComplete(k, pick) => RuntimeSafety.CompleteOk(r, k, pick);
  }

  lemma {:induction false} RunKeepsHistoryOk(start: Runtime, steps: seq<Step>)
    requires HistoryOk(start) && IsRun(start, steps)
    ensures HistoryOk(After(start, steps))
    decreases |steps|
  {
    hide HistoryOk, Enabled, Do;
    if |steps| > 0 {
      StepKeepsHistoryOk(start, steps[0]);
      RunKeepsHistoryOk(Do(start, steps[0]), steps[1..]);
    }
  }

  lemma ReachableHistoryOk(r: Runtime)
    requires Reachable(r)
    ensures HistoryOk(r)
  {
    hide IsRun, After;
    var steps :| IsRun(INITIAL, steps) && After(INITIAL, steps) == r;
    assert WritingKeys(INITIAL.inFlight) == {};
    RunKeepsHistoryOk(INITIAL, steps);
  }

  // ----- the history as a list of notes, oldest first -----

  function Notes(h: History): seq<Note> {
    match h
    case Start => []
    case Then(past, note) => Notes(past) + [note]
  }

  /** What ends the runtime's duty to a record: a gap mark of its session, or a full delivery of it. */
  predicate Settles(note: Note, x: Record) {
    note == Marked(x.key) || (note.Delivered? && x in note.records)
  }

  ghost predicate SettledAfter(notes: seq<Note>, i: nat, x: Record) {
    exists j :: i < j < |notes| && Settles(notes[j], x)
  }

  lemma SettledStays(notes: seq<Note>, note: Note, i: nat, x: Record)
    requires SettledAfter(notes, i, x)
    ensures SettledAfter(notes + [note], i, x)
  {
    var j :| i < j < |notes| && Settles(notes[j], x);
    assert Settles((notes + [note])[j], x);
  }

  lemma {:induction false} OutstandingIsUnaccounted(h: History, i: nat, x: Record)
    requires i < |Notes(h)| && Notes(h)[i] == Took(x) && !SettledAfter(Notes(h), i, x)
    ensures x in Unaccounted(h)
  {
    var notes := Notes(h);
    var last := |notes| - 1;
    if i < last {
      assert notes[..last] == Notes(h.past) && notes[last] == h.note;
      assert !Settles(notes[last], x);
      assert !SettledAfter(Notes(h.past), i, x) by {
        if SettledAfter(Notes(h.past), i, x) {
          SettledStays(Notes(h.past), h.note, i, x);
        }
      }
      OutstandingIsUnaccounted(h.past, i, x);
    }
  }

  /**
   * No silent loss: in every reachable state, a record that was taken in is
   * buffered or in flight, or a gap of its session was marked since, or it was
   * part of a fully delivered flush since.
   */
  lemma NoSilentLoss(r: Runtime, i: nat, x: Record)
    requires Reachable(r)
    requires i < |Notes(r.transport.log)| && Notes(r.transport.log)[i] == Took(x)
    ensures HeldBy(r, x) || SettledAfter(Notes(r.transport.log), i, x)
  {
    hide CoreOk, Reachable, SettledAfter, HeldBy;
    ReachableHistoryOk(r);
    if !SettledAfter(Notes(r.transport.log), i, x) {
      OutstandingIsUnaccounted(r.transport.log, i, x);
    }
  }

  ghost predicate HandedAt(h: History, i: nat, a: nat, x: Record) {
    && i < |Notes(h)| && Notes(h)[i].Handed?
    && a < |Notes(h)[i].events| && Notes(h)[i].events[a] == Payload(x)
  }

  lemma {:induction false} HandedAtIsHanded(h: History, i: nat, a: nat, x: Record)
    requires HandedAt(h, i, a, x)
    ensures x in HandedRecords(h)
  {
    if i < |Notes(h)| - 1 {
      assert Notes(h)[i] == Notes(h.past)[i];
      HandedAtIsHanded(h.past, i, a, x);
    }
  }

  lemma {:induction false} HandedOnceMeans(h: History, i: nat, a: nat, j: nat, b: nat, x: Record)
    requires HandedOnce(h) && HandedAt(h, i, a, x) && HandedAt(h, j, b, x) && i <= j
    ensures i == j && a == b
  {
    var last := |Notes(h)| - 1;
    assert forall n: nat | n < last :: Notes(h)[n] == Notes(h.past)[n];
    assert j == last ==> x in RecordsIn(h.note.events);
    if j < last {
      HandedOnceMeans(h.past, i, a, j, b, x);
    } else if i < last {
      HandedAtIsHanded(h.past, i, a, x);
    } else {
      assert DistinctPayloads(h.note.events);
    }
  }

  /** No record, a `session_finished` in particular, is given to a launcher twice in one run. */
  lemma HandedAtMostOnce(r: Runtime, i: nat, a: nat, j: nat, b: nat, x: Record)
    requires Reachable(r) && HandedAt(r.transport.log, i, a, x) && HandedAt(r.transport.log, j, b, x)
    ensures i == j && a == b
  {
    hide Reachable, HandedAt;
    ReachableHistoryOk(r);
    if i <= j {
      HandedOnceMeans(r.transport.log, i, a, j, b, x);
    } else {
      HandedOnceMeans(r.transport.log, j, b, i, a, x);
    }
  }

  ghost predicate ConfirmedAt(h: History, j: int, x: Record) {
    0 <= j < |Notes(h)| && Notes(h)[j].Confirmed? && Payload(x) in Notes(h)[j].events
  }

  lemma {:induction false} ConfirmedSomewhere(h: History, x: Record) returns (j: nat)
    requires x in ConfirmedRecords(h)
    ensures ConfirmedAt(h, j, x)
  {
    if h.note.Confirmed? && x in RecordsIn(h.note.events) {
      j := |Notes(h)| - 1;
    } else {
      j := ConfirmedSomewhere(h.past, x);
      assert Notes(h)[j] == Notes(h.past)[j];
    }
  }

  lemma {:induction false} DeliveryMeans(h: History, i: nat, x: Record) returns (j: nat)
    requires DeliveriesConfirmed(h)
    requires i < |Notes(h)| && Notes(h)[i].Delivered? && x in Notes(h)[i].records
    ensures j < i && ConfirmedAt(h, j, x)
  {
    assert forall n: nat | n < |Notes(h)| - 1 :: Notes(h)[n] == Notes(h.past)[n];
    if i < |Notes(h)| - 1 {
      j := DeliveryMeans(h.past, i, x);
    } else {
      j := ConfirmedSomewhere(h.past, x);
    }
  }

  /** A full delivery is claimed only of records whose chunks were all reported successful before. */
  lemma DeliveredWasConfirmed(r: Runtime, i: nat, x: Record)
    requires Reachable(r) && i < |Notes(r.transport.log)|
    requires Notes(r.transport.log)[i].Delivered? && x in Notes(r.transport.log)[i].records
    ensures exists j :: j < i && ConfirmedAt(r.transport.log, j, x)
  {
    hide Reachable;
    ReachableHistoryOk(r);
    var j := DeliveryMeans(r.transport.log, i, x);
  }

  /** The permit counter is exact: it is the number of writes in flight, at most four. */
  lemma PermitsExact(r: Runtime)
    requires Reachable(r)
    ensures r.transport.active == |WritingKeys(r.inFlight)| <= MAX_CONCURRENT_WRITES
  {
    hide Reachable;
    ReachableHistoryOk(r);
  }

  // ----- coming to rest -----

  lemma ReachableFlightsBounded(r: Runtime)
    requires Reachable(r)
    ensures RuntimeTermination.FlightsBounded(r)
  {
    hide Reachable, RuntimeBytes.Sized, RuntimeBytes.Slack, TransportOk;
    ReachableHistoryOk(r);
    RuntimeBytes.ReachableBytes(r);
  }

  /** Something can always happen while a flush is in flight, and nothing by itself otherwise. */
  lemma RestIffNothingInFlight(r: Runtime)
    requires Reachable(r)
    ensures (exists step: Step :: step.Internal() && Enabled(r, step)) <==> |r.inFlight| > 0
  {
    hide Reachable, Release;
    ReachableHistoryOk(r);
    if |r.inFlight| > 0 {
      assert |r.inFlight.Keys| > 0;
      var k :| k in r.inFlight.Keys;
      var step := NextStep(r, k);
    }
  }

  lemma NextStep(r: Runtime, k: Key) returns (step: Step)
    requires HistoryOk(r) && k in r.inFlight
    ensures step.Internal() && Enabled(r, step)
  {
    hide Release, HandedRecords, Taken, Unaccounted, ConfirmedRecords, LogOk, BufferOk, AwaitsTerminalFlush;
    match r.inFlight[k].stage {
      case Queued => step := DoBegin(k, None);
      case Writing(f) =>
        assert FlushOk(k, r.inFlight[k], r.transport) && f.next <= |f.chunks|;
        if f.writing {
          assert k in WritingKeys(r.inFlight);
          step := DoSettleChunk(k, true);
        } else if f.next < |f.chunks| {
          step := DoStartChunk(k);
        } else {
          step := DoFinish(k);
        }
      case Settled(_) =>
        var released := Release(r, k);
        if j :| AwaitsTerminalFlush(released, j) {
          step := DoComplete(k, Some(j));
        } else {
          step := DoComplete(k, None);
        }
    }
  }

  /** Flush chains stop: from any reachable state, a run without new events is bounded in length. */
  lemma ComesToRest(r: Runtime, steps: seq<Step>)
    requires Reachable(r) && IsRun(r, steps) && forall step <- steps :: step.Internal()
    ensures |steps| <= RuntimeTermination.Potential(r)
  {
    hide Reachable, RuntimeTermination.Potential, RuntimeTermination.FlightsBounded;
    ReachableFlightsBounded(r);
    RuntimeTermination.ChainsTerminate(r, steps);
  }
}
