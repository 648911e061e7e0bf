/** The OpenCode reducer object, each method tied to the function it computes in `OpenCodeReducer`. */
module EventReducers {
  import opened Util
  import opened InsertionMaps
  import R = OpenCodeReducer
  import opened OpenCodeReducer

  /** Adds up the sizes of the entries of a table, in any order. */
  method TotalSize<V>(table: map<string, V>, size: V -> nat) returns (bytes: nat)
    ensures bytes == SumOver(table, size)
  {
    bytes := 0;
    var rest := table;
    while rest.Keys != {}
      invariant bytes + SumOver(rest, size) == SumOver(table, size)
      decreases |rest|
    {
      var k :| k in rest.Keys;
      SumRemove(rest, size, k);
      assert |rest| == |rest.Keys| && rest.Keys == (rest - {k}).Keys + {k};
      bytes := bytes + size(rest[k]);
      rest := rest - {k};
    }
  }

  /** The deletions of the oldest entries before an insertion. */
  method EvictOldest<V>(table: InsertionMap<string, V>, capacity: nat) returns (trimmed: InsertionMap<string, V>)
    ensures trimmed == table.MakeRoom(capacity)
  {
    trimmed := table;
    while |trimmed.order| >= capacity
      invariant trimmed.MakeRoom(capacity) == table.MakeRoom(capacity)
      decreases |trimmed.order|
    {
      if |trimmed.order| == 0 {
        break;
      }
      trimmed := InsertionMap(trimmed.order[1..], trimmed.values - {trimmed.order[0]});
    }
  }

  class OpenCodeEventReducer {
    var sessions: map<string, Session>
    var finalizedSessions: InsertionMap<string, Finalized>
    var overflowSessions: InsertionMap<string, bool>
    var evictAfterReduction: set<string>
    var retainedStateBytes: int

    function State(): Reducer
      reads this
    {
      Reducer(sessions, finalizedSessions, overflowSessions, evictAfterReduction, retainedStateBytes)
    }

    constructor ()
      ensures State() == EMPTY
    {
      sessions, finalizedSessions, overflowSessions := map[], InsertionMap([], map[]), InsertionMap([], map[]);
      evictAfterReduction, retainedStateBytes := {}, 0;
    }

    method ReserveState(bytes: nat) returns (ok: bool)
      modifies this`retainedStateBytes
      ensures ok == Affordable(old(State()), bytes)
      ensures retainedStateBytes == old(retainedStateBytes) + if ok then bytes else 0
    {
      if retainedStateBytes + bytes > MAX_REDUCER_STATE_BYTES {
        return false;
      }
      retainedStateBytes := retainedStateBytes + bytes;
      return true;
    }

    method ReleaseSession(sid: string)
      requires sid in sessions
      modifies this`sessions, this`retainedStateBytes
      ensures State() == R.ReleaseSession(old(State()), sid)
    {
      var session := sessions[sid];
      var calls := TotalSize(session.calls, CallSize);
      var events := TotalSize(session.events, SeenSize);
      retainedStateBytes := Max(0, retainedStateBytes - (session.bytes + calls + events));
      sessions := sessions[sid := session.(calls := map[], events := map[])];
    }

    method SessionOverflow(sid: string) returns (records: seq<Record>)
      modifies this`overflowSessions
      ensures (State(), records) == MarkOverflow(old(State()), sid)
    {
      if sid in overflowSessions.values {
        overflowSessions := overflowSessions.Touch(sid);
        return [];
      }
      AbsentFromMap(overflowSessions, sid);
      var trimmed := EvictOldest(overflowSessions.Delete(sid), MAX_OVERFLOW_SESSION_MARKERS);
      overflowSessions := trimmed.Set(sid, true);
      return [CoverageDegraded(sid, Overflow)];
    }

    /** `#finalizedSession`: a look-up that counts as a use. */
    method FinalizedSession(sid: string) returns (found: bool)
      modifies this`finalizedSessions
      ensures State() == TouchFinalized(old(State()), sid)
      ensures found == (sid in finalizedSessions.values)
    {
      finalizedSessions := finalizedSessions.Touch(sid);
      found := sid in finalizedSessions.values;
    }

    method RememberFinalized(sid: string, eventID: Option<string>, fingerprint: Fingerprint)
      modifies this`finalizedSessions
      ensures State() == R.RememberFinalized(old(State()), sid, eventID, fingerprint)
    {
      var state := Finalized(map[], false);
      if eventID.Some? {
        state := state.(events := state.events[eventID.value := fingerprint]);
      }
      var trimmed := EvictOldest(finalizedSessions.Delete(sid), MAX_FINALIZED_SESSIONS);
      finalizedSessions := trimmed.Set(sid, state);
    }

    method ReduceFinalized(sid: string, eventID: Option<string>, fingerprint: Fingerprint) returns (records: seq<Record>)
      requires sid in finalizedSessions.values
      modifies this`finalizedSessions
      ensures (State(), records) == R.ReduceFinalized(old(State()), sid, eventID, fingerprint)
    {
      if eventID.None? {
        return [];
      }
      var state := finalizedSessions.values[sid];
      var prior := Get(state.events, eventID.value);
      if prior == Some(fingerprint) {
        return [];
      }
      if prior.Some? {
        return [CoverageDegraded(sid, InvalidTransition)];
      }
      if |state.events| >= MAX_FINALIZED_EVENT_IDS {
        return [CoverageDegraded(sid, Overflow)];
      }
      finalizedSessions := finalizedSessions.Set(sid, state.(events := state.events[eventID.value := fingerprint]));
      return [];
    }

    method IsFinalized(sid: string) returns (found: bool)
      modifies this`finalizedSessions
      ensures State() == TouchFinalized(old(State()), sid) && found == (sid in old(finalizedSessions).values)
    {
      found := FinalizedSession(sid);
    }

    /** `#session`. */
    method ActiveSession(sid: string) returns (ok: bool)
      modifies this
      ensures ok == CanOpen(old(State()), sid)
      ensures State() == if ok then OpenSession(old(State()), sid) else old(State())
    {
      hide InsertionMap.Delete;
      if sid in sessions {
        return true;
      }
      if |sessions| >= MAX_SESSIONS {
        return false;
      }
      var reserved := ReserveState(SessionOverhead(sid));
      if !reserved {
        return false;
      }
      var marked := sid in overflowSessions.values;
      var state := Session(map[], map[], false, false, if marked then 1 else 0, false, SessionOverhead(sid),
                           if marked then [CoverageDegraded(sid, Overflow)] else []);
      overflowSessions := overflowSessions.Delete(sid);
      sessions := sessions[sid := state];
      return true;
    }

    method Degrade(sid: string, reason: Reason, disable: bool) returns (records: seq<Record>)
      modifies this
      ensures (State(), records) == R.Degrade(old(State()), sid, reason, disable)
    {
      hide OpenSession, CanOpen, MarkOverflow;
      var live := ActiveSession(sid);
      if !live {
        records := SessionOverflow(sid);
        return;
      }
      if disable {
        LiveAfterOpen(old(State()), sid);
        sessions := sessions[sid := sessions[sid].(disabled := true)];
      }
      return [CoverageDegraded(sid, reason)];
    }

    method EventReplay(sid: string, eventID: Option<string>, fingerprint: Fingerprint) returns (replay: Replay)
      requires sid in sessions
      modifies this
      ensures (State(), replay) == NoteEvent(old(State()), sid, eventID, fingerprint)
    {
      if eventID.None? {
        return New;
      }
      var session := sessions[sid];
      var prior := Get(session.events, eventID.value);
      if prior.None? {
        if |session.events| >= MAX_EVENT_IDS_PER_SESSION {
          return Full;
        }
        var reserved := ReserveState(EventOverhead(eventID.value));
        if !reserved {
          return Full;
        }
        sessions := sessions[sid := session.(events := session.events[eventID.value := Seen(fingerprint, EventOverhead(eventID.value))])];
        return New;
      }
      return if prior.value.fingerprint == fingerprint then Replayed else Conflict;
    }

    /** The end of `#reduceTool`, once the event is known to be new. */
    method ReduceCall(sid: string, eventID: Option<string>, call: ToolCall) returns (records: seq<Record>)
      requires sid in sessions
      modifies this
      ensures (State(), records) == R.ReduceCall(old(State()), sid, eventID, call)
    {
      hide R.Degrade, CallOverhead, Rank;
      var session := sessions[sid];
      if call.callID !in session.calls {
        if |session.calls| >= MAX_CALLS_PER_SESSION {
          records := Degrade(sid, Overflow, true);
          return;
        }
        var reserved := ReserveState(CallOverhead(call));
        if !reserved {
          records := Degrade(sid, Overflow, true);
          return;
        }
        var added := Call(call.status, IdentityOf(call), CallOverhead(call));
        sessions := sessions[sid := session.(calls := session.calls[call.callID := added])];
        var started := StartedRecord(sid, eventID, call);
        if !Terminal(call.status) {
          assert [started] + [] == [started];
          return [started];
        }
        return [started] + [FinishedRecord(sid, eventID, call)];
      }
      var prior := session.calls[call.callID];
      if prior.identity != IdentityOf(call) {
        records := Degrade(sid, InvalidTransition, false);
        return;
      }
      if Rank(call.status) < Rank(prior.status) || (Terminal(prior.status) && call.status != prior.status) {
        records := Degrade(sid, InvalidTransition, false);
        return;
      }
      sessions := sessions[sid := session.(calls := session.calls[call.callID := prior.(status := call.status)])];
      if call.status == prior.status || (!Terminal(call.status) && Rank(call.status) > Rank(prior.status)) {
        return [];
      }
      RankTies(call.status, prior.status);
      return [FinishedRecord(sid, eventID, call)];
    }

    method ReduceTool(e: Event) returns (records: seq<Record>)
      requires e.ToolUpdated?
      modifies this
      ensures (State(), records) == R.ReduceTool(old(State()), e)
    {
      hide TouchFinalized, R.Degrade, OpenSession, CanOpen, MarkOverflow, NoteEvent, R.ReduceCall, R.ReduceFinalized, ToolFingerprint;
      var sid := e.sessionID;
      var finalized := FinalizedSession(sid);
      ghost var touched := State();
      if !finalized && sid in sessions && (sessions[sid].disabled || sessions[sid].deleted) {
        return [];
      }
      if e.foreign || e.call.None? {
        if finalized {
          return [CoverageDegraded(sid, MissingField)];
        }
        records := Degrade(sid, MissingField, true);
        return;
      }
      var fingerprint := ToolFingerprint(sid, e.call.value);
      if finalized {
        records := ReduceFinalized(sid, e.eventID, fingerprint);
        return;
      }
      var live := ActiveSession(sid);
      if !live {
        records := SessionOverflow(sid);
        return;
      }
      LiveAfterOpen(touched, sid);
      LiveAfterNote(State(), sid, e.eventID, fingerprint);
      var replay := EventReplay(sid, e.eventID, fingerprint);
      match replay {
        case Replayed => return [];
        case Conflict => records := Degrade(sid, InvalidTransition, false);
        case Full => records := Degrade(sid, Overflow, true);
        case New => records := ReduceCall(sid, e.eventID, e.call.value);
      }
    }

    method ReduceDeleted(e: Event) returns (records: seq<Record>)
      requires e.SessionDeleted?
      modifies this
      ensures (State(), records) == R.ReduceDeleted(old(State()), e)
    {
      hide TouchFinalized, R.Degrade, OpenSession, CanOpen, MarkOverflow, NoteEvent, R.ReduceFinalized, FinishSession;
      var sid := e.sessionID;
      var finalized := FinalizedSession(sid);
      ghost var touched := State();
      if e.foreign {
        if finalized {
          return [CoverageDegraded(sid, MissingField)];
        }
        records := Degrade(sid, MissingField, true);
        return;
      }
      if finalized {
        records := ReduceFinalized(sid, e.eventID, OfKind(sid, Deletion));
        return;
      }
      var live := ActiveSession(sid);
      if !live {
        records := SessionOverflow(sid);
        return;
      }
      LiveAfterOpen(touched, sid);
      if sessions[sid].deleted {
        return [];
      }
      LiveAfterNote(State(), sid, e.eventID, OfKind(sid, Deletion));
      var replay := EventReplay(sid, e.eventID, OfKind(sid, Deletion));
      match replay {
        case Replayed => return [];
        case Conflict => records := Degrade(sid, InvalidTransition, false);
        case Full => records := Degrade(sid, Overflow, true);
        case New => records := FinishedSession(sid, e.eventID);
      }
    }

    /** The end of a deletion: remembered as finalized, its state released, evicted when the event is over. */
    method FinishedSession(sid: string, eventID: Option<string>) returns (records: seq<Record>)
      requires sid in sessions
      modifies this
      ensures (State(), records) == FinishSession(old(State()), sid, eventID)
    {
      hide R.ReleaseSession;
      sessions := sessions[sid := sessions[sid].(deleted := true)];
      RememberFinalized(sid, eventID, OfKind(sid, Deletion));
      ReleaseSession(sid);
      evictAfterReduction := evictAfterReduction + {sid};
      return [SessionFinished(sid, eventID)];
    }

    method ReduceSessionEvent(e: Event) returns (records: seq<Record>)
      requires e.SessionEvent?
      modifies this
      ensures (State(), records) == R.ReduceSessionEvent(old(State()), e)
    {
      hide TouchFinalized, R.Degrade, OpenSession, CanOpen, MarkOverflow, NoteEvent, R.ReduceFinalized;
      var sid := e.sessionID;
      var finalized := FinalizedSession(sid);
      ghost var touched := State();
      if finalized {
        records := ReduceFinalized(sid, e.eventID, OfKind(sid, e.kind));
        return;
      }
      var live := ActiveSession(sid);
      if !live {
        records := SessionOverflow(sid);
        return;
      }
      LiveAfterOpen(touched, sid);
      if sessions[sid].disabled || sessions[sid].deleted {
        return [];
      }
      var replay := EventReplay(sid, e.eventID, OfKind(sid, e.kind));
      match replay {
        case Replayed => return [];
        case Conflict => records := Degrade(sid, InvalidTransition, false);
        case Full => records := Degrade(sid, Overflow, true);
        case New => return [Boundary(sid, e.eventID, e.kind)];
      }
    }

    method ReduceValue(e: Event) returns (records: seq<Record>)
      modifies this
      ensures (State(), records) == R.ReduceValue(old(State()), e)
    {
      hide R.ReduceTool, R.ReduceDeleted, R.ReduceSessionEvent;
      match e {
        case Irrelevant => return [];
        case ToolUpdated(_, _, _, _) => records := ReduceTool(e);
        case SessionDeleted(_, _, _) => records := ReduceDeleted(e);
        case SessionEvent(_, _, _) => records := ReduceSessionEvent(e);
      }
    }

    method AdmitRecords(sid: string, records: seq<Record>)
      requires sid in sessions
      modifies this`sessions
      ensures State() == Admit(old(State()), sid, records)
    {
      var session := sessions[sid];
      sessions := sessions[sid := session.(recordCount := session.recordCount + |records|, stream := session.stream + records)];
    }

    /** One turn of the loop of `#boundedRecords`. */
    method BoundedGroup(sid: string, values: seq<Record>) returns (admitted: seq<Record>)
      requires |values| > 0
      modifies this
      ensures (State(), admitted) == R.BoundedGroup(old(State()), sid, values)
    {
      hide InsertionMap.Touch, InsertionMap.Set;
      if sid !in sessions {
        var found := FinalizedSession(sid);
        if found && !finalizedSessions.values[sid].degradationReported && AllDegraded(values) {
          finalizedSessions := finalizedSessions.Set(sid, finalizedSessions.values[sid].(degradationReported := true));
          return [values[0]];
        } else if !found && sid in overflowSessions.values && AllDegraded(values) {
          return [values[0]];
        }
        return [];
      }
      var session := sessions[sid];
      if session.overflowReported {
        if AllFinished(values) && session.recordCount + |values| <= MAX_REDUCED_RECORDS_PER_SESSION {
          AdmitRecords(sid, values);
          return values;
        }
        return [];
      }
      if session.recordCount + |values| <= Limit(values) {
        AdmitRecords(sid, values);
        return values;
      }
      sessions := sessions[sid := session.(disabled := true, overflowReported := true)];
      if session.recordCount < MAX_REDUCED_RECORDS_PER_SESSION - 1 {
        AdmitRecords(sid, [CoverageDegraded(sid, Overflow)]);
        return [CoverageDegraded(sid, Overflow)];
      }
      return [];
    }

    method BoundedRecords(records: seq<Record>) returns (admitted: seq<Record>)
      modifies this
      ensures (State(), admitted) == R.BoundedRecords(old(State()), records)
    {
      hide R.BoundedGroup;
      admitted := [];
      var remaining := records;
      NothingBefore(R.BoundedRecords(State(), records));
      while |remaining| > 0
        invariant R.BoundedRecords(old(State()), records) == Following(admitted, R.BoundedRecords(State(), remaining))
        decreases |remaining|
      {
        ghost var before := State();
        OneGroupFurther(before, admitted, remaining);
        var sid := remaining[0].sessionID;
        var group := BoundedGroup(sid, [remaining[0]] + OfSession(remaining[1..], sid));
        remaining := NotOfSession(remaining, sid);
        admitted := admitted + group;
      }
      assert admitted + [] == admitted;
    }

    method Reduce(e: Event) returns (admitted: seq<Record>)
      modifies this
      ensures (State(), admitted) == R.Reduce(old(State()), e)
    {
      hide R.ReduceValue, R.BoundedRecords;
      var records := ReduceValue(e);
      admitted := BoundedRecords(records);
      sessions := sessions - evictAfterReduction;
      evictAfterReduction := {};
    }
  }

  /** The result of a loop whose remaining turns give `rest`. */
  function Following(admitted: seq<Record>, rest: (Reducer, seq<Record>)): (Reducer, seq<Record>) {
    (rest.0, admitted + rest.1)
  }

  lemma NothingBefore(rest: (Reducer, seq<Record>))
    ensures Following([], rest) == rest
  {
    assert [] + rest.1 == rest.1;
  }

  lemma OneGroupFurther(s: Reducer, admitted: seq<Record>, remaining: seq<Record>)
    requires |remaining| > 0
    ensures var sid := remaining[0].sessionID;
            var (s', group) := R.BoundedGroup(s, sid, [remaining[0]] + OfSession(remaining[1..], sid));
            Following(admitted, R.BoundedRecords(s, remaining))
              == Following(admitted + group, R.BoundedRecords(s', NotOfSession(remaining, sid)))
  {
    hide R.BoundedGroup;
    var sid := remaining[0].sessionID;
    var (s', group) := R.BoundedGroup(s, sid, [remaining[0]] + OfSession(remaining[1..], sid));
    var rest := R.BoundedRecords(s', NotOfSession(remaining, sid));
    assert admitted + (group + rest.1) == admitted + group + rest.1;
  }

  lemma AbsentFromMap<V>(m: InsertionMap<string, V>, k: string)
    ensures k !in m.values ==> m.values - {k} == m.values
  {
  }

  lemma LiveAfterOpen(s: Reducer, sid: string)
    requires CanOpen(s, sid)
    ensures sid in OpenSession(s, sid).sessions
  {
  }

  lemma LiveAfterNote(s: Reducer, sid: string, eventID: Option<string>, fingerprint: Fingerprint)
    requires sid in s.sessions
    ensures sid in NoteEvent(s, sid, eventID, fingerprint).0.sessions
  {
  }

  lemma RankTies(a: Status, b: Status)
    ensures !Terminal(a) && a != b ==> Rank(a) != Rank(b)
  {
  }
}
