/** The Pi window reducer object, each method tied to the function it computes in `PiReducer`. */
module PiWindowReducers {
  import opened Util
  import P = PiReducer
  import opened PiReducer

  class PiWindowReducer {
    const coordinates: Coordinates
    var pending: map<string, PendingCall>
    var final: map<string, FinalCall>
    var retainedStateBytes: int
    var recordCount: nat
    var nextEventID: nat
    var overflowReported: bool
    var disabled: bool
    var finished: bool
    var turnOpen: bool
    ghost var emitted: seq<Record>

    ghost function State(): Window
      reads this
    {
      Window(coordinates, pending, final, retainedStateBytes, recordCount, nextEventID, overflowReported, disabled, finished,
             turnOpen, emitted)
    }

    /** Every pending call was reserved at the same size, and the counter is not negative. */
    ghost predicate Valid()
      reads this
    {
      retainedStateBytes >= 0 && forall c <- pending :: pending[c].bytes == CALL_STATE_OVERHEAD_BYTES
    }

    constructor (coordinates: Coordinates)
      ensures Valid() && State() == Initial(coordinates)
    {
      this.coordinates := coordinates;
      pending, final, retainedStateBytes, recordCount, nextEventID := map[], map[], 0, 0, 1;
      overflowReported, disabled, finished, turnOpen, emitted := false, false, false, false, [];
    }

    method ReserveState(bytes: nat) returns (ok: bool)
      requires Valid()
      modifies this`retainedStateBytes
      ensures Valid() && ok == Reservable(old(State()), bytes)
      ensures retainedStateBytes == old(retainedStateBytes) + if ok then bytes else 0
    {
      if retainedStateBytes + bytes > MAX_REDUCER_STATE_BYTES {
        return false;
      }
      retainedStateBytes := retainedStateBytes + bytes;
      return true;
    }

    method ReleaseState(bytes: int)
      modifies this`retainedStateBytes
      ensures State() == Release(old(State()), bytes)
    {
      retainedStateBytes := Max(0, retainedStateBytes - bytes);
    }

    /** Enters the pending calls as final one by one; each releases what it no longer needs, which is nothing. */
    method FinishPending()
      requires Valid()
      modifies this`final, this`retainedStateBytes
      ensures retainedStateBytes == old(retainedStateBytes) && final == old(final) + Moved(pending, pending.Keys)
    {
      hide Moved;
      var keys := pending.Keys;
      MovedNone(final, pending);
      while keys != {}
        invariant keys <= pending.Keys && retainedStateBytes == old(retainedStateBytes) && Valid()
        invariant final == old(final) + Moved(pending, pending.Keys - keys)
        decreases keys
      {
        var key :| key in keys;
        MovedOne(old(final), pending, keys, key);
        ReleaseState(pending[key].bytes - FINAL_CALL_STATE_BYTES);
        final := final[key := FinalCall(Some(pending[key].start), None, FINAL_CALL_STATE_BYTES)];
        keys := keys - {key};
      }
      assert pending.Keys - {} == pending.Keys;
    }

    method ClearPending() returns (hadPending: bool)
      requires Valid()
      modifies this`pending, this`final, this`retainedStateBytes
      ensures Valid() && State() == P.ClearPending(old(State())) && hadPending == (|old(pending)| > 0)
    {
      hide Moved, AsFinal;
      hadPending := |pending| > 0;
      FinishPending();
      MovedAll(pending);
      pending := map[];
    }

    method Materialize(body: Body) returns (record: Record)
      requires Valid()
      modifies this`nextEventID, this`recordCount, this`emitted
      ensures Valid() && State() == P.Materialize(old(State()), body) && emitted == old(emitted) + [record]
    {
      record := Record(coordinates, nextEventID, body);
      nextEventID := nextEventID + 1;
      recordCount := recordCount + 1;
      emitted := emitted + [record];
    }

    method Admit(bodies: seq<Body>, mode: Mode) returns (records: seq<Record>)
      requires Valid()
      modifies this`nextEventID, this`recordCount, this`emitted, this`disabled, this`overflowReported
      ensures Valid() && State() == P.Admit(old(State()), bodies, mode) && emitted == old(emitted) + records
    {
      if |bodies| == 0 {
        return [];
      }
      if recordCount + |bodies| <= Limit(mode) {
        records := [];
        var i := 0;
        while i < |bodies|
          invariant i <= |bodies| && Valid() && emitted == old(emitted) + records
          invariant disabled == old(disabled) && overflowReported == old(overflowReported)
          invariant MaterializeAll(old(State()), bodies) == MaterializeAll(State(), bodies[i..])
        {
          assert bodies[i..][0] == bodies[i] && bodies[i..][1..] == bodies[i + 1..];
          var record := Materialize(bodies[i]);
          records := records + [record];
          i := i + 1;
        }
        return;
      }
      if !mode.Normal? {
        return [];
      }
      disabled := true;
      if !overflowReported && recordCount < MAX_REDUCED_RECORDS_PER_WINDOW - 1 {
        overflowReported := true;
        var record := Materialize(CoverageDegraded(Overflow));
        return [record];
      }
      return [];
    }

    method Degrade(reason: Reason) returns (records: seq<Record>)
      requires Valid()
      modifies this`nextEventID, this`recordCount, this`emitted, this`disabled, this`overflowReported
      ensures Valid() && State() == P.Degrade(old(State()), reason) && emitted == old(emitted) + records
    {
      hide P.Admit;
      if finished {
        return [];
      }
      if reason.Overflow? {
        disabled := true;
        if overflowReported {
          return [];
        }
        overflowReported := true;
      }
      records := Admit([CoverageDegraded(reason)], Degradation);
    }

    method RememberFinal(c: string, start: Option<StartPrint>, end: Option<EndPrint>) returns (ok: bool)
      requires Valid()
      modifies this`final, this`retainedStateBytes
      ensures Valid() && ok == Reservable(old(State()), FINAL_CALL_STATE_BYTES)
      ensures State() == if ok then P.RememberFinal(old(State()), c, start, end) else old(State())
    {
      ok := ReserveState(FINAL_CALL_STATE_BYTES);
      if ok {
        final := final[c := FinalCall(start, end, FINAL_CALL_STATE_BYTES)];
      }
    }

    /** A final entry, or an overflow, and then the degradation that goes with it. */
    method FinalOrOverflow(c: string, start: Option<StartPrint>, end: Option<EndPrint>, reason: Reason) returns (records: seq<Record>)
      requires Valid()
      modifies this
      ensures Valid() && State() == P.FinalOrOverflow(old(State()), c, start, end, reason) && emitted == old(emitted) + records
    {
      hide P.Degrade, Reservable;
      var ok := RememberFinal(c, start, end);
      records := Degrade(if ok then reason else Overflow);
    }

    method ToolStart(call: Option<(string, string)>) returns (records: seq<Record>)
      requires Valid()
      modifies this
      ensures Valid() && State() == ReduceStart(old(State()), call) && emitted == old(emitted) + records
    {
      hide P.Degrade, P.FinalOrOverflow, Reservable;
      if disabled {
        return [];
      }
      if call.None? {
        records := Degrade(MissingField);
        return;
      }
      var (c, tool) := call.value;
      var start := StartPrint(c, tool);
      if c in final {
        if final[c].start == Some(start) {
          return [];
        }
        records := Degrade(InvalidTransition);
        return;
      }
      if c in pending {
        var prior := pending[c];
        if prior.start == start {
          return [];
        }
        pending := pending - {c};
        ReleaseState(prior.bytes);
        records := FinalOrOverflow(c, None, None, InvalidTransition);
        return;
      }
      if |pending| + |final| >= MAX_CALLS_PER_WINDOW {
        records := Degrade(Overflow);
        return;
      }
      var reserved := ReserveState(CALL_STATE_OVERHEAD_BYTES);
      if !reserved {
        records := Degrade(Overflow);
        return;
      }
      pending := pending[c := PendingCall(start, CALL_STATE_OVERHEAD_BYTES)];
      turnOpen := true;
      return [];
    }

    method ToolEnd(ended: Option<(string, string, bool)>) returns (records: seq<Record>)
      requires Valid()
      modifies this
      ensures Valid() && State() == ReduceEnd(old(State()), ended) && emitted == old(emitted) + records
    {
      hide P.Degrade, P.FinalOrOverflow, P.Admit, Reservable;
      if disabled {
        return [];
      }
      if ended.None? {
        records := Degrade(MissingField);
        return;
      }
      var (c, tool, isError) := ended.value;
      var start, end := StartPrint(c, tool), EndPrint(c, tool, isError);
      if c in final {
        if final[c].end == Some(end) {
          return [];
        }
        if final[c].end.None? {
          final := final[c := final[c].(end := Some(end))];
        }
        records := Degrade(InvalidTransition);
        return;
      }
      if c !in pending {
        if |pending| + |final| >= MAX_CALLS_PER_WINDOW {
          records := Degrade(Overflow);
          return;
        }
        records := FinalOrOverflow(c, None, Some(end), InvalidTransition);
        return;
      }
      var prior := pending[c];
      pending := pending - {c};
      ReleaseState(prior.bytes);
      if prior.start != start {
        records := FinalOrOverflow(c, None, None, InvalidTransition);
        return;
      }
      var ok := RememberFinal(c, Some(start), Some(end));
      if !ok {
        records := Degrade(Overflow);
      } else if isError {
        records := Degrade(AmbiguousError);
      } else {
        records := Admit([P.ToolStarted(c, tool), P.ToolFinished(c)], Normal);
      }
    }

    method AgentSettled() returns (records: seq<Record>)
      requires Valid()
      modifies this
      ensures Valid() && State() == ReduceSettled(old(State())) && emitted == old(emitted) + records
    {
      hide P.Admit, P.ClearPending;
      ghost var before := State();
      var unmatched := ClearPending();
      Cleared(before);
      var bodies: seq<Body> := if unmatched then [CoverageDegraded(UnmatchedStart)] else [];
      bodies := bodies + if turnOpen then [TurnFinished] else [];
      turnOpen := false;
      records := Admit(bodies, Normal);
    }

    /** `#compact` and `#tree`, once their fields are read. */
    method BoundaryEvent(boundary: Body) returns (records: seq<Record>)
      requires Valid()
      modifies this
      ensures Valid() && State() == ReduceBoundary(old(State()), boundary) && emitted == old(emitted) + records
    {
      hide P.Admit, P.ClearPending;
      ghost var before := State();
      var unmatched := ClearPending();
      Cleared(before);
      records := Admit((if unmatched then [CoverageDegraded(UnmatchedStart)] else []) + [boundary], Normal);
    }

    method Shutdown(why: string) returns (records: seq<Record>)
      requires Valid()
      modifies this
      ensures Valid() && State() == ReduceShutdown(old(State()), why) && emitted == old(emitted) + records
    {
      hide P.Admit, P.ClearPending;
      ghost var before := State();
      var unmatched := ClearPending();
      Cleared(before);
      turnOpen := false;
      assert State() == P.ClearPending(before).(turnOpen := false);
      var terminal := SessionFinished(why);
      var bodies := (if unmatched then [CoverageDegraded(UnmatchedStart)] else []) + [terminal];
      if recordCount + |bodies| > MAX_REDUCED_RECORDS_PER_WINDOW {
        bodies := [terminal];
      }
      records := Admit(bodies, Closing);
      finished := true;
    }

    method Reduce(e: Event) returns (records: seq<Record>)
      requires Valid()
      modifies this
      ensures Valid() && State() == P.Reduce(old(State()), e) && emitted == old(emitted) + records
    {
      hide P.Degrade, ReduceStart, ReduceEnd, ReduceSettled, ReduceBoundary, ReduceShutdown;
      if finished {
        return [];
      }
      match e {
        case Ignored => return [];
        case Unreadable => records := Degrade(MissingField);
        case BeforeAgentStart =>
          if disabled {
            return [];
          } else if turnOpen {
            records := Degrade(InvalidTransition);
          } else {
            turnOpen := true;
            return [];
          }
        case ToolStart(call) => records := ToolStart(call);
        case ToolEnd(ended) => records := ToolEnd(ended);
        case AgentSettled => records := AgentSettled();
        case SessionCompact(None) => records := Degrade(MissingField);
        case SessionCompact(Some(c)) => records := BoundaryEvent(Compaction(c.0, c.1, c.2));
        case SessionTree(None) => records := Degrade(MissingField);
        case SessionTree(Some(m)) => records := BoundaryEvent(TreeMove(m.0, m.1));
        case SessionShutdown(None) => records := Degrade(MissingField);
        case SessionShutdown(Some(why)) => records := Shutdown(why);
      }
    }
  }

  /** The final entries of the pending calls in `done`. */
  function Moved(pending: map<string, PendingCall>, done: set<string>): map<string, FinalCall> {
    map c | c in pending && c in done :: FinalCall(Some(pending[c].start), None, FINAL_CALL_STATE_BYTES)
  }

  lemma MovedNone(final: map<string, FinalCall>, pending: map<string, PendingCall>)
    ensures final + Moved(pending, pending.Keys - pending.Keys) == final
  {
    assert Moved(pending, pending.Keys - pending.Keys) == map[];
  }

  lemma MovedOne(final: map<string, FinalCall>, pending: map<string, PendingCall>, keys: set<string>, c: string)
    requires c in keys && keys <= pending.Keys
    ensures (final + Moved(pending, pending.Keys - keys))[c := FinalCall(Some(pending[c].start), None, FINAL_CALL_STATE_BYTES)]
         == final + Moved(pending, pending.Keys - (keys - {c}))
  {
    var was, now := Moved(pending, pending.Keys - keys), Moved(pending, pending.Keys - (keys - {c}));
    assert now == was[c := FinalCall(Some(pending[c].start), None, FINAL_CALL_STATE_BYTES)];
  }

  lemma MovedAll(pending: map<string, PendingCall>)
    ensures Moved(pending, pending.Keys) == AsFinal(pending)
  {
  }

  lemma Cleared(w: Window)
    ensures P.ClearPending(w) == w.(pending := map[], final := P.ClearPending(w).final)
  {
  }
}
