/**
 * Every operation of the OpenCode reducer keeps its tables, byte count and
 * sessions in order.
 *
 * One lemma for each private method of the source, from the remembered
 * overflow to the tool call, each saying that the invariant survives and how
 * the retained bytes moved.  The sum over sessions is hidden throughout and
 * moved by the change of one session's cost at a time.
 */
module ReducerSteps {
  import opened Util
  import opened InsertionMaps
  import opened OpenCodeReducer
  import opened ReducerInvariant

  ghost predicate PairwiseDisjoint<T>(a: set<T>, b: set<T>, c: set<T>) {
    a !! b && a !! c && b !! c
  }

  /** Table sizes; live, finalized and overflow-marked sessions are pairwise disjoint. */
  ghost predicate TablesOk(s: Reducer) {
    && |s.sessions| <= MAX_SESSIONS
    && s.finalized.Valid() && |s.finalized.order| <= MAX_FINALIZED_SESSIONS
    && s.overflow.Valid() && |s.overflow.order| <= MAX_OVERFLOW_SESSION_MARKERS
    && (forall j <- s.finalized.values :: |s.finalized.values[j].events| <= MAX_FINALIZED_EVENT_IDS)
    && PairwiseDisjoint(s.sessions.Keys, s.finalized.values.Keys, s.overflow.values.Keys)
  }

  /** The byte counter is the sum over live sessions, and within its bound. */
  ghost predicate BytesOk(s: Reducer) {
    s.stateBytes == SumOver(s.sessions, SessionSize) <= MAX_REDUCER_STATE_BYTES
  }

  ghost predicate FrameOk(s: Reducer) {
    s.evict == {} && TablesOk(s) && BytesOk(s)
  }

  ghost predicate OthersOk(s: Reducer, sid: string) {
    forall j <- s.sessions :: j != sid ==> SessionOk(j, s.sessions[j])
  }

  /** The invariant of the reducer between events. */
  ghost predicate ReducerOk(s: Reducer) {
    FrameOk(s) && forall j <- s.sessions :: SessionOk(j, s.sessions[j])
  }

  /** The reducer between `#reduceValue` and `#boundedRecords`. */
  ghost predicate Proposed(s: Reducer, sid: string, records: seq<Record>) {
    && FrameOk(s) && OthersOk(s, sid) && StreamOk(sid, records)
    && (sid in s.sessions ==> Ready(sid, s.sessions[sid], records))
    && (sid !in s.sessions ==> |records| <= 1 && AllDegraded(records))
  }

  // ----- replacing and adding a session -----

  lemma ReplaceSession(s: Reducer, sid: string, x: Session, delta: nat)
    requires FrameOk(s) && sid in s.sessions && SessionSize(x) == SessionSize(s.sessions[sid]) + delta
    requires Affordable(s, delta)
    ensures FrameOk(PutSession(s, sid, x).(stateBytes := s.stateBytes + delta))
  {
    hide SumOver, SessionSize;
    SumPut(s.sessions, SessionSize, sid, x);
    assert s.sessions[sid := x].Keys == s.sessions.Keys;
    assert |s.sessions[sid := x]| == |s.sessions|;
  }

  lemma ReplacedInPlace(s: Reducer, sid: string, x: Session)
    requires FrameOk(s) && sid in s.sessions && SessionSize(x) == SessionSize(s.sessions[sid])
    ensures FrameOk(PutSession(s, sid, x))
  {
    hide SumOver, SessionSize;
    ReplaceSession(s, sid, x, 0);
    assert PutSession(s, sid, x).(stateBytes := s.stateBytes + 0) == PutSession(s, sid, x);
  }

  lemma OpenKey<T>(live: set<T>, final: set<T>, marked: set<T>, x: T)
    requires PairwiseDisjoint(live, final, marked) && x !in live && x !in final
    ensures PairwiseDisjoint(live + {x}, final, marked - {x}) && |live + {x}| == |live| + 1
  {
  }

  lemma AddSession(s: Reducer, sid: string, x: Session)
    requires FrameOk(s) && sid !in s.sessions && sid !in s.finalized.values && |s.sessions| < MAX_SESSIONS
    requires Affordable(s, SessionSize(x))
    ensures FrameOk(PutSession(s, sid, x).(overflow := s.overflow.Delete(sid), stateBytes := s.stateBytes + SessionSize(x)))
  {
    hide SumOver, SessionSize, PairwiseDisjoint, InsertionMap.Valid;
    SumPut(s.sessions, SessionSize, sid, x);
    DeleteValid(s.overflow, sid);
    OpenKey(s.sessions.Keys, s.finalized.values.Keys, s.overflow.values.Keys, sid);
    assert s.sessions[sid := x].Keys == s.sessions.Keys + {sid};
    assert s.overflow.Delete(sid).values.Keys == s.overflow.values.Keys - {sid};
  }

  /** The finalized and overflow tables may change within their bounds. */
  lemma ChangeTables(s: Reducer, s': Reducer)
    requires FrameOk(s) && s' == s.(finalized := s'.finalized, overflow := s'.overflow)
    requires TablesOk(s')
    ensures FrameOk(s')
  {
  }

  lemma TouchOk(s: Reducer, sid: string)
    requires ReducerOk(s)
    ensures ReducerOk(TouchFinalized(s, sid))
    ensures TouchFinalized(s, sid).finalized.values == s.finalized.values
  {
    hide SessionOk, SumOver, InsertionMap.Valid, InsertionMap.Touch, PairwiseDisjoint;
    TouchValid(s.finalized, sid);
  }

  lemma {:induction false} NoCalls(stream: seq<Record>, c: string)
    requires forall r <- stream :: r.CoverageDegraded?
    ensures Trace(stream, c) == []
  {
    if |stream| > 0 {
      NoCalls(stream[..|stream| - 1], c);
      assert stream[|stream| - 1] in stream;
    }
  }

  lemma FreshSessionOk(sid: string, marked: bool, x: Session)
    requires x.stream == if marked then [CoverageDegraded(sid, Overflow)] else []
    requires |x.calls| == 0 && |x.events| == 0 && !x.disabled && !x.deleted && !x.overflowReported
    requires x.recordCount == |x.stream|
    ensures SessionOk(sid, x)
  {
    forall c
      ensures CallOk(x.calls, false, x.stream, c)
    {
      NoCalls(x.stream, c);
    }
  }

  lemma FreshSessionSize(x: Session)
    requires |x.calls| == 0 && |x.events| == 0
    ensures SessionSize(x) == x.bytes
  {
  }

  lemma OpenOk(s: Reducer, sid: string)
    requires ReducerOk(s) && CanOpen(s, sid) && sid !in s.finalized.values
    ensures var s' := OpenSession(s, sid);
            ReducerOk(s') && sid in s'.sessions && s'.finalized == s.finalized
  {
    hide SessionOk, SumOver, SessionSize, SessionOverhead, TablesOk, BytesOk;
    if sid !in s.sessions {
      var x := OpenSession(s, sid).sessions[sid];
      FreshSessionOk(sid, sid in s.overflow.values, x);
      FreshSessionSize(x);
      AddSession(s, sid, x);
    }
  }

  lemma MarkKey<T>(live: set<T>, final: set<T>, marked: set<T>, after: set<T>, x: T)
    requires PairwiseDisjoint(live, final, marked) && x !in live && x !in final && after <= marked + {x}
    ensures PairwiseDisjoint(live, final, after)
  {
  }

  lemma MarkOk(s: Reducer, sid: string)
    requires ReducerOk(s) && sid !in s.sessions && sid !in s.finalized.values
    ensures var (s', records) := MarkOverflow(s, sid); ReducerOk(s') && Proposed(s', sid, records)
  {
    hide SessionOk, SumOver, InsertionMap.Valid, InsertionMap.Touch, InsertionMap.Remember, PairwiseDisjoint;
    var (s', records) := MarkOverflow(s, sid);
    TouchValid(s.overflow, sid);
    RememberValid(s.overflow, sid, true, MAX_OVERFLOW_SESSION_MARKERS);
    MarkKey(s.sessions.Keys, s.finalized.values.Keys, s.overflow.values.Keys, s'.overflow.values.Keys, sid);
    ChangeTables(s, s');
  }

  lemma ProposeNothing(s: Reducer, sid: string)
    requires ReducerOk(s)
    ensures Proposed(s, sid, [])
  {
    hide SessionOk, Ready, FrameOk;
    if sid in s.sessions {
      ReadyNothing(sid, s.sessions[sid]);
    }
  }

  lemma ProposeOther(s: Reducer, sid: string, r: Record)
    requires ReducerOk(s) && sid in s.sessions && r.sessionID == sid
    requires r.Boundary? || r.CoverageDegraded?
    ensures Proposed(s, sid, [r])
  {
    hide SessionOk, Ready, FrameOk;
    ReadyOther(sid, s.sessions[sid], s.sessions[sid].disabled, r);
  }

  lemma ProposeDisabling(s: Reducer, sid: string, reason: Reason)
    requires ReducerOk(s) && sid in s.sessions
    ensures Proposed(PutSession(s, sid, s.sessions[sid].(disabled := true)), sid, [CoverageDegraded(sid, reason)])
  {
    hide SessionOk, Ready, FrameOk, SumOver;
    ReadyOther(sid, s.sessions[sid], true, CoverageDegraded(sid, reason));
    ReplacedInPlace(s, sid, s.sessions[sid].(disabled := true));
  }

  lemma DegradeOk(s: Reducer, sid: string, reason: Reason, disable: bool)
    requires ReducerOk(s) && sid !in s.finalized.values
    ensures var (s', records) := Degrade(s, sid, reason, disable); Proposed(s', sid, records)
  {
    hide ReducerOk, Proposed, OpenSession, MarkOverflow;
    if !CanOpen(s, sid) {
      MarkOk(s, sid);
    } else {
      OpenOk(s, sid);
      ProposeOther(OpenSession(s, sid), sid, CoverageDegraded(sid, reason));
      ProposeDisabling(OpenSession(s, sid), sid, reason);
    }
  }

  // ----- events -----

  lemma EventNoted(x: Session, eventID: string, seen: Seen)
    requires eventID !in x.events
    ensures SessionSize(x.(events := x.events[eventID := seen])) == SessionSize(x) + seen.bytes
  {
    hide SumOver;
    SumPut(x.events, SeenSize, eventID, seen);
  }

  lemma NoteOk(s: Reducer, sid: string, eventID: Option<string>, fingerprint: Fingerprint)
    requires ReducerOk(s) && sid in s.sessions
    ensures var s' := NoteEvent(s, sid, eventID, fingerprint).0;
            && ReducerOk(s') && sid in s'.sessions && s'.finalized == s.finalized
            && s'.sessions[sid] == s.sessions[sid].(events := s'.sessions[sid].events)
  {
    hide SessionSize, SumOver, CallsOk, EventOverhead, StreamOk, TablesOk, BytesOk;
    var (s', replay) := NoteEvent(s, sid, eventID, fingerprint);
    if s' != s {
      var x := s.sessions[sid];
      var seen := Seen(fingerprint, EventOverhead(eventID.value));
      EventNoted(x, eventID.value, seen);
      assert SessionOk(sid, x);
      ReplaceSession(s, sid, x.(events := x.events[eventID.value := seen]), seen.bytes);
    }
  }

  lemma ReduceFinalizedOk(s: Reducer, sid: string, eventID: Option<string>, fingerprint: Fingerprint)
    requires ReducerOk(s) && sid in s.finalized.values
    ensures var (s', records) := ReduceFinalized(s, sid, eventID, fingerprint); ReducerOk(s') && Proposed(s', sid, records)
  {
    hide SessionOk, Ready, FrameOk, ReducerOk, InsertionMap.Set;
    var f := s.finalized.values[sid];
    NotLive(s, sid);
    if eventID.Some? && |f.events| < MAX_FINALIZED_EVENT_IDS {
      SetFinalizedOk(s, sid, f.(events := f.events[eventID.value := fingerprint]));
      NotLive(s.(finalized := s.finalized.Set(sid, f.(events := f.events[eventID.value := fingerprint]))), sid);
    }
  }

  lemma NotLive(s: Reducer, sid: string)
    requires ReducerOk(s)
    ensures sid in s.finalized.values ==> sid !in s.sessions
    ensures FrameOk(s) && OthersOk(s, sid)
  {
    hide SessionOk, SumOver;
  }

  lemma SetFinalizedOk(s: Reducer, sid: string, f: Finalized)
    requires ReducerOk(s) && sid in s.finalized.values && |f.events| <= MAX_FINALIZED_EVENT_IDS
    ensures ReducerOk(s.(finalized := s.finalized.Set(sid, f)))
  {
    hide SessionOk, SumOver, InsertionMap.Valid, PairwiseDisjoint;
    SetValid(s.finalized, sid, f);
    assert s.finalized.Set(sid, f).values.Keys == s.finalized.values.Keys;
  }

  // ----- calls -----

  lemma CallAdded(x: Session, c: string, call: Call)
    requires c !in x.calls
    ensures SessionSize(x.(calls := x.calls[c := call])) == SessionSize(x) + call.bytes
  {
    hide SumOver;
    SumPut(x.calls, CallSize, c, call);
  }

  lemma CallMoved(x: Session, c: string, call: Call)
    requires c in x.calls && call.bytes == x.calls[c].bytes
    ensures SessionSize(x.(calls := x.calls[c := call])) == SessionSize(x)
  {
    hide SumOver;
    SumPut(x.calls, CallSize, c, call);
  }

  /** A call's records and its new status move together. */
  lemma CallReady(sid: string, x: Session, c: string, call: Call, records: seq<Record>)
    requires SessionOk(sid, x) && !x.disabled && |x.calls[c := call]| <= MAX_CALLS_PER_SESSION
    requires forall r <- records :: r.sessionID == sid && OfCall(r, c)
    requires Lifecycle(Trace(x.stream, c) + records)
    requires |Trace(x.stream, c) + records| == Emitted(map[c := call], c) && Faithful(call, Trace(x.stream, c) + records)
    ensures Ready(sid, x.(calls := x.calls[c := call]), records)
  {
    var calls, stream := x.calls[c := call], x.stream + records;
    forall d
      ensures CallOk(calls, false, stream, d)
    {
      assert CallOk(x.calls, false, x.stream, d);
      TraceConcat(x.stream, records, d);
      TraceOfCall(records, c, d);
    }
  }

  lemma {:induction false} TraceOfCall(records: seq<Record>, c: string, d: string)
    requires forall r <- records :: OfCall(r, c)
    ensures Trace(records, d) == if c == d then records else []
  {
    if |records| > 0 {
      var front, last := records[..|records| - 1], records[|records| - 1];
      assert records == front + [last] && last in records;
      TraceOfCall(front, c, d);
    }
  }

  /** What the source accepts of a call it has seen: same identity, no step back, no change of outcome. */
  predicate Acceptable(prior: Call, call: ToolCall) {
    && prior.identity == IdentityOf(call) && Rank(call.status) >= Rank(prior.status)
    && (Terminal(prior.status) ==> call.status == prior.status)
  }

  lemma ReduceCallOk(s: Reducer, sid: string, eventID: Option<string>, call: ToolCall)
    requires ReducerOk(s) && sid in s.sessions && sid !in s.finalized.values && !s.sessions[sid].disabled
    ensures var (s', records) := ReduceCall(s, sid, eventID, call); Proposed(s', sid, records)
  {
    hide ReducerOk, Proposed, Degrade, CallOverhead;
    var calls := s.sessions[sid].calls;
    DegradeOk(s, sid, Overflow, true);
    DegradeOk(s, sid, InvalidTransition, false);
    if call.callID in calls {
      if Acceptable(calls[call.callID], call) {
        MoveCallOk(s, sid, eventID, call);
      }
    } else if |calls| < MAX_CALLS_PER_SESSION && Affordable(s, CallOverhead(call)) {
      NewCallOk(s, sid, eventID, call);
    }
  }

  lemma NewCallOk(s: Reducer, sid: string, eventID: Option<string>, call: ToolCall)
    requires ReducerOk(s) && sid in s.sessions && !s.sessions[sid].disabled && call.callID !in s.sessions[sid].calls
    requires |s.sessions[sid].calls| < MAX_CALLS_PER_SESSION && Affordable(s, CallOverhead(call))
    ensures var (s', records) := ReduceCall(s, sid, eventID, call); Proposed(s', sid, records)
  {
    hide SumOver, SessionSize, SessionOk, Ready, CallOverhead, TablesOk, BytesOk;
    var x := s.sessions[sid];
    var added := Call(call.status, IdentityOf(call), CallOverhead(call));
    var (s', records) := ReduceCall(s, sid, eventID, call);
    CallAdded(x, call.callID, added);
    ReplaceSession(s, sid, x.(calls := x.calls[call.callID := added]), CallOverhead(call));
    UnseenCall(sid, x, call.callID);
    assert |x.calls[call.callID := added]| == |x.calls| + 1;
    CallReady(sid, x, call.callID, added, records);
  }

  lemma UnseenCall(sid: string, x: Session, c: string)
    requires SessionOk(sid, x) && !x.disabled && c !in x.calls
    ensures Trace(x.stream, c) == []
  {
    assert CallOk(x.calls, false, x.stream, c);
  }

  lemma MoveCallOk(s: Reducer, sid: string, eventID: Option<string>, call: ToolCall)
    requires ReducerOk(s) && sid in s.sessions && !s.sessions[sid].disabled && call.callID in s.sessions[sid].calls
    requires Acceptable(s.sessions[sid].calls[call.callID], call)
    ensures var (s', records) := ReduceCall(s, sid, eventID, call); Proposed(s', sid, records)
  {
    hide SumOver, SessionSize, SessionOk, Ready, TablesOk, BytesOk;
    var x := s.sessions[sid];
    var moved := x.calls[call.callID].(status := call.status);
    var (s', records) := ReduceCall(s, sid, eventID, call);
    CallMoved(x, call.callID, moved);
    ReplacedInPlace(s, sid, x.(calls := x.calls[call.callID := moved]));
    CallBounds(sid, x, call.callID);
    assert |x.calls[call.callID := moved]| == |x.calls|;
    CallReady(sid, x, call.callID, moved, records);
  }

  lemma CallBounds(sid: string, x: Session, c: string)
    requires SessionOk(sid, x) && !x.disabled
    ensures |x.calls| <= MAX_CALLS_PER_SESSION
    ensures Lifecycle(Trace(x.stream, c)) && |Trace(x.stream, c)| == Emitted(x.calls, c)
    ensures c in x.calls ==> Faithful(x.calls[c], Trace(x.stream, c))
  {
    assert CallOk(x.calls, false, x.stream, c);
  }

  // ----- the kinds of event -----

  lemma ReduceToolOk(s: Reducer, e: Event)
    requires ReducerOk(s) && e.ToolUpdated?
    ensures var (s', records) := ReduceTool(s, e); Proposed(s', e.sessionID, records)
  {
    hide ReducerOk, Proposed, Degrade, MarkOverflow, OpenSession, NoteEvent, ReduceCall, ReduceFinalized, ToolFingerprint;
    var sid := e.sessionID;
    var s1 := TouchFinalized(s, sid);
    TouchOk(s, sid);
    ProposeNothing(s1, sid);
    if sid in s1.finalized.values {
      ProposeFinalized(s1, sid, MissingField);
      if e.call.Some? {
        ReduceFinalizedOk(s1, sid, e.eventID, ToolFingerprint(sid, e.call.value));
      }
    } else {
      DegradeOk(s1, sid, MissingField, true);
      if !CanOpen(s1, sid) {
        MarkOk(s1, sid);
      } else if e.call.Some? && !(sid in s1.sessions && s1.sessions[sid].disabled) {
        OpenOk(s1, sid);
        OpenEnabled(s1, sid);
        var live := OpenSession(s1, sid);
        NoteOk(live, sid, e.eventID, ToolFingerprint(sid, e.call.value));
        var noted := NoteEvent(live, sid, e.eventID, ToolFingerprint(sid, e.call.value)).0;
        AfterNoteOk(noted, sid);
        ReduceCallOk(noted, sid, e.eventID, e.call.value);
      }
    }
  }

  lemma OpenEnabled(s: Reducer, sid: string)
    requires CanOpen(s, sid) && !(sid in s.sessions && s.sessions[sid].disabled)
    ensures !OpenSession(s, sid).sessions[sid].disabled
  {
  }

  lemma ProposeFinalized(s: Reducer, sid: string, reason: Reason)
    requires ReducerOk(s) && sid in s.finalized.values
    ensures Proposed(s, sid, [CoverageDegraded(sid, reason)])
  {
    hide SessionOk, Ready, SumOver;
  }

  /** The three answers of the replay table that end an event. */
  lemma AfterNoteOk(s: Reducer, sid: string)
    requires ReducerOk(s) && sid !in s.finalized.values
    ensures Proposed(s, sid, [])
    ensures var (s', records) := Degrade(s, sid, InvalidTransition, false); Proposed(s', sid, records)
    ensures var (s', records) := Degrade(s, sid, Overflow, true); Proposed(s', sid, records)
  {
    hide ReducerOk, Proposed, Degrade;
    ProposeNothing(s, sid);
    DegradeOk(s, sid, InvalidTransition, false);
    DegradeOk(s, sid, Overflow, true);
  }

  lemma ReduceSessionEventOk(s: Reducer, e: Event)
    requires ReducerOk(s) && e.SessionEvent?
    ensures var (s', records) := ReduceSessionEvent(s, e); Proposed(s', e.sessionID, records)
  {
    hide ReducerOk, Proposed, Degrade, MarkOverflow, OpenSession, NoteEvent, ReduceFinalized;
    var sid := e.sessionID;
    var s1 := TouchFinalized(s, sid);
    TouchOk(s, sid);
    if sid in s1.finalized.values {
      ReduceFinalizedOk(s1, sid, e.eventID, OfKind(sid, e.kind));
    } else if !CanOpen(s1, sid) {
      MarkOk(s1, sid);
    } else {
      OpenOk(s1, sid);
      var live := OpenSession(s1, sid);
      ProposeNothing(live, sid);
      NoteOk(live, sid, e.eventID, OfKind(sid, e.kind));
      var noted := NoteEvent(live, sid, e.eventID, OfKind(sid, e.kind)).0;
      AfterNoteOk(noted, sid);
      ProposeOther(noted, sid, Boundary(sid, e.eventID, e.kind));
    }
  }
}
