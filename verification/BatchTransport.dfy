/** The transport object itself, each method tied to the step it takes. */
module BatchTransports {
  import opened Util
  import T = Transport
  import opened Transport

  class BatchTransport {
    const overflow: Overflow
    var pendingGaps: map<Key, nat>
    var gapGeneration: nat
    var activeWrites: nat
    var globalGapPoison: bool
    /** What an observer outside has seen so far; the source keeps no such record. */
    var log: History

    ghost function State(): State
      reads this
    {
      T.State.State(overflow, pendingGaps, gapGeneration, globalGapPoison, activeWrites, log)
    }

    constructor (overflow: Overflow)
      ensures State() == T.State.State(overflow, map[], 0, false, 0, Start)
      ensures StateOk(State())
    {
      this.overflow := overflow;
      pendingGaps, gapGeneration, activeWrites, globalGapPoison, log := map[], 0, 0, false, Start;
    }

    method HasPendingGap(k: Key) returns (answer: bool)
      ensures answer == T.HasPendingGap(State(), k)
    {
      answer := ValidKey(k) && (globalGapPoison || k in pendingGaps);
    }

    method MarkGap(k: Key)
      modifies this
      ensures State() == T.MarkGap(old(State()), k)
    {
      log := Then(log, Marked(k));
      if !ValidKey(k) {
        return;
      }
      if k in pendingGaps || |pendingGaps| < MAX_PENDING_GAPS {
        gapGeneration := gapGeneration + 1;
        pendingGaps := pendingGaps[k := gapGeneration];
      } else if overflow.Poison? {
        globalGapPoison := true;
      }
    }

    method AcquireWritePermit() returns (granted: bool)
      modifies this`activeWrites
      ensures granted <==> old(activeWrites) < MAX_CONCURRENT_WRITES
      ensures activeWrites == old(activeWrites) + if granted then 1 else 0
    {
      if activeWrites >= MAX_CONCURRENT_WRITES {
        return false;
      }
      activeWrites := activeWrites + 1;
      return true;
    }

    method ReleaseWritePermit()
      requires activeWrites > 0
      modifies this`activeWrites
      ensures activeWrites == old(activeWrites) - 1
    {
      activeWrites := activeWrites - 1;
    }

    /** `flush` up to the first write. */
    method FlushBegin(k: Key, records: seq<Record>, force: bool, build: Option<seq<seq<Event>>>) returns (begun: Begun)
      modifies this
      ensures (State(), begun) == Begin(old(State()), k, records, force, build)
    {
      var mismatch := exists r <- records :: r.key != k;
      if (overflow.Poison? && !ValidKey(k)) || mismatch {
        MarkGap(k);
        return Finished(AttemptedFailure);
      }
      var pendingGapGeneration := Get(pendingGaps, k);
      var gap := if pendingGapGeneration.Some? || globalGapPoison then [GapNotice(k)] else [];
      var events := gap + Payloads(records);
      if |events| == 0 && !force {
        return Finished(FullyDelivered);
      }
      if build.None? {
        MarkGap(k);
        return Finished(AttemptedFailure);
      }
      return Flying(Flight(k, records, pendingGapGeneration, events, build.value, 0, 0, 0, false));
    }

    /** One turn of the loop over the chunks, up to the await of the launcher. */
    method WriteStart(flight: Flight) returns (after: Flight)
      requires flight.next < |flight.chunks| && !flight.writing
      modifies this
      ensures (State(), after) == StartWrite(old(State()), flight)
    {
      var granted := AcquireWritePermit();
      if !granted {
        return flight.(next := flight.next + 1);
      }
      log := Then(log, Handed(flight.chunks[flight.next]));
      return flight.(writing := true);
    }

    method WriteSettled(flight: Flight, ok: bool) returns (after: Flight)
      requires flight.writing && flight.next < |flight.chunks| && activeWrites > 0
      modifies this
      ensures (State(), after) == SettleWrite(old(State()), flight, ok)
    {
      if ok {
        log := Then(log, Confirmed(flight.chunks[flight.next]));
      }
      ReleaseWritePermit();
      return flight.(writing := false, next := flight.next + 1, started := flight.started + 1,
                     delivered := if ok then flight.delivered + 1 else flight.delivered);
    }

    /** The end of `flush`, after the last write. */
    method FlushFinish(flight: Flight) returns (result: FlushResult)
      requires flight.next == |flight.chunks| && !flight.writing
      modifies this
      ensures (State(), result) == Finish(old(State()), flight)
    {
      if flight.started == 0 {
        MarkGap(flight.key);
        return NotStarted;
      } else if flight.delivered == |flight.chunks| {
        var cleared := Get(pendingGaps, flight.key) == flight.seen;
        log := Then(log, Delivered(flight.records, if cleared && flight.seen.Some? then Some(flight.key) else None));
        if cleared {
          pendingGaps := pendingGaps - {flight.key};
        }
        return FullyDelivered;
      } else {
        MarkGap(flight.key);
        return AttemptedFailure;
      }
    }
  }
}
