/** The end of an event: the record quota, the deletion of a session, and the invariant across `reduce`. */
module ReducerQuota {
  import opened Util
  import opened InsertionMaps
  import opened OpenCodeReducer
  import opened ReducerInvariant
  import opened ReducerSteps

  // ----- one event speaks of one session -----

  lemma {:induction false} OneSession(records: seq<Record>, sid: string)
    requires forall r <- records :: r.sessionID == sid
    ensures OfSession(records, sid) == records && NotOfSession(records, sid) == []
  {
    if |records| > 0 {
      assert records[0] in records;
      OneSession(records[1..], sid);
    }
  }

  lemma BoundedIsGroup(s: Reducer, sid: string, records: seq<Record>)
    requires |records| > 0 && forall r <- records :: r.sessionID == sid
    ensures BoundedRecords(s, records) == BoundedGroup(s, sid, records)
  {
    hide BoundedGroup;
    assert records[0] in records;
    OneSession(records, sid);
    OneSession(records[1..], sid);
    assert [records[0]] + records[1..] == records;
    var (s1, admitted) := BoundedGroup(s, sid, records);
    assert BoundedRecords(s1, []) == (s1, []);
    assert admitted + [] == admitted;
  }

  // ----- the quota -----

  lemma PutSessionOk(s: Reducer, sid: string, x: Session)
    requires FrameOk(s) && OthersOk(s, sid) && sid in s.sessions
    requires SessionOk(sid, x) && SessionSize(x) == SessionSize(s.sessions[sid])
    ensures ReducerOk(PutSession(s, sid, x))
  {
    hide FrameOk, SessionOk, SessionSize;
    ReplacedInPlace(s, sid, x);
  }

  lemma PutTwice(s: Reducer, sid: string, x: Session, y: Session)
    ensures PutSession(PutSession(s, sid, x), sid, y) == PutSession(s, sid, y)
  {
    assert s.sessions[sid := x][sid := y] == s.sessions[sid := y];
  }

  lemma QuotaLive(s: Reducer, sid: string, records: seq<Record>)
    requires Proposed(s, sid, records) && |records| > 0 && sid in s.sessions
    ensures ReducerOk(BoundedGroup(s, sid, records).0)
  {
    hide FrameOk, SessionOk, Ready, SumOver, Limit, AllFinished, AllDegraded;
    var x := s.sessions[sid];
    if x.overflowReported {
      ClosedOk(sid, x, records);
      NotAllFinished(sid, records);
    } else {
      if x.recordCount + |records| <= Limit(records) {
        AdmittedOk(sid, x, records);
        PutSessionOk(s, sid, x.(recordCount := x.recordCount + |records|, stream := x.stream + records));
      } else {
        SuppressedOk(sid, x, records);
        var y := x.(disabled := true, overflowReported := true);
        var notice := CoverageDegraded(sid, Overflow);
        if x.recordCount < MAX_REDUCED_RECORDS_PER_SESSION - 1 {
          PutTwice(s, sid, y, y.(recordCount := x.recordCount + 1, stream := x.stream + [notice]));
          PutSessionOk(s, sid, y.(recordCount := x.recordCount + 1, stream := x.stream + [notice]));
        } else {
          PutSessionOk(s, sid, y);
        }
      }
    }
  }

  lemma NotAllFinished(sid: string, records: seq<Record>)
    requires StreamOk(sid, records) && |records| > 0
    ensures !AllFinished(records)
  {
    assert records[0] in records;
  }

  lemma QuotaGone(s: Reducer, sid: string, records: seq<Record>)
    requires ReducerOk(s) && |records| > 0 && sid !in s.sessions
    ensures ReducerOk(BoundedGroup(s, sid, records).0)
  {
    hide ReducerOk, AllDegraded;
    TouchOk(s, sid);
    var touched := TouchFinalized(s, sid);
    if sid in touched.finalized.values {
      var f := touched.finalized.values[sid];
      FinalizedBound(touched, sid);
      SetFinalizedOk(touched, sid, f.(degradationReported := true));
    }
  }

  lemma FinalizedBound(s: Reducer, sid: string)
    requires ReducerOk(s) && sid in s.finalized.values
    ensures |s.finalized.values[sid].events| <= MAX_FINALIZED_EVENT_IDS
  {
  }

  lemma ProposedParts(s: Reducer, sid: string, records: seq<Record>)
    requires Proposed(s, sid, records)
    ensures s.evict == {} && forall r <- records :: r.sessionID == sid
    ensures |records| == 0 || sid !in s.sessions ==> ReducerOk(s)
  {
    hide SessionOk, Ready, SumOver, TablesOk;
    if |records| == 0 && sid in s.sessions {
      ReadyEmpty(sid, s.sessions[sid], records);
    }
  }

  lemma ReadyEmpty(sid: string, x: Session, records: seq<Record>)
    requires Ready(sid, x, records) && |records| == 0
    ensures SessionOk(sid, x)
  {
    assert x.stream + records == x.stream;
  }

  lemma QuotaOk(s: Reducer, sid: string, records: seq<Record>)
    requires Proposed(s, sid, records)
    ensures ReducerOk(BoundedRecords(s, records).0)
  {
    hide ReducerOk, Proposed, BoundedGroup;
    ProposedParts(s, sid, records);
    if |records| > 0 {
      BoundedIsGroup(s, sid, records);
      if sid in s.sessions {
        QuotaLive(s, sid, records);
      } else {
        QuotaGone(s, sid, records);
      }
    }
  }

  lemma EvictNothing(s: Reducer)
    requires s.evict == {}
    ensures Evict(s) == s
  {
    assert s.sessions - {} == s.sessions;
  }

  // ----- deleting a session -----

  /** A live session's size is part of the counter: the clamp at zero never fires. */
  lemma ReleaseIsExact(s: Reducer, sid: string)
    requires BytesOk(s) && sid in s.sessions
    ensures ReleaseSession(s, sid).stateBytes == s.stateBytes - SessionSize(s.sessions[sid])
    ensures ReleaseSession(s, sid).stateBytes == SumOver(s.sessions - {sid}, SessionSize)
  {
    hide SumOver, SessionSize;
    SumRemove(s.sessions, SessionSize, sid);
  }

  /** The reserved slot: a deletion always fits under the quota, whatever was suppressed before. */
  lemma FinishAdmitted(s: Reducer, sid: string, eventID: Option<string>)
    requires ReducerOk(s) && sid in s.sessions
    ensures var (finished, records) := FinishSession(s, sid, eventID);
            BoundedRecords(finished, records) == (Admit(finished, sid, records), records)
  {
    hide SumOver, SessionSize, TablesOk, BytesOk, CallsOk, StreamOk;
    assert SessionOk(sid, s.sessions[sid]);
    var (finished, records) := FinishSession(s, sid, eventID);
    BoundedIsGroup(finished, sid, records);
  }

  lemma FinishIs(s: Reducer, sid: string, eventID: Option<string>)
    requires s.evict == {} && sid in s.sessions
    ensures sid in FinishSession(s, sid, eventID).0.sessions
    ensures var (finished, records) := FinishSession(s, sid, eventID);
            Evict(Admit(finished, sid, records))
              == RememberFinalized(s, sid, eventID, OfKind(sid, Deletion))
                   .(sessions := s.sessions - {sid}, stateBytes := finished.stateBytes)
  {
    hide SessionSize, InsertionMap.Remember;
    var (finished, records) := FinishSession(s, sid, eventID);
    assert Admit(finished, sid, records).sessions - {sid} == s.sessions - {sid};
    assert Admit(finished, sid, records).evict == {sid};
  }

  /** After a deletion the session is gone and remembered as finalized, and the invariant holds. */
  lemma FinishOk(s: Reducer, sid: string, eventID: Option<string>)
    requires ReducerOk(s) && sid in s.sessions
    ensures var (finished, records) := FinishSession(s, sid, eventID);
            var s' := Evict(Admit(finished, sid, records));
            && ReducerOk(s') && s'.sessions == s.sessions - {sid}
            && s'.finalized == RememberFinalized(s, sid, eventID, OfKind(sid, Deletion)).finalized
            && sid in s'.finalized.values
  {
    hide SumOver, SessionSize, SessionOk, TablesOk, FinishSession, Admit, Evict;
    var (finished, records) := FinishSession(s, sid, eventID);
    FinishIs(s, sid, eventID);
    FinishBytes(s, sid, eventID);
    FinishTables(s, sid, eventID, finished.stateBytes);
  }

  lemma MoveKey<T>(live: set<T>, final: set<T>, marked: set<T>, moved: set<T>, x: T)
    requires PairwiseDisjoint(live, final, marked) && x in live && moved <= final + {x}
    ensures PairwiseDisjoint(live - {x}, moved, marked) && |live - {x}| <= |live|
  {
    assert live == (live - {x}) + {x};
  }

  lemma FinishTables(s: Reducer, sid: string, eventID: Option<string>, bytes: int)
    requires TablesOk(s) && sid in s.sessions
    ensures var s' := RememberFinalized(s, sid, eventID, OfKind(sid, Deletion)).(sessions := s.sessions - {sid}, stateBytes := bytes);
            TablesOk(s') && sid in s'.finalized.values
  {
    hide InsertionMap.Valid, InsertionMap.Remember, PairwiseDisjoint;
    var f := Finalized(if eventID.Some? then map[eventID.value := OfKind(sid, Deletion)] else map[], false);
    var after := s.finalized.Remember(sid, f, MAX_FINALIZED_SESSIONS);
    RememberValid(s.finalized, sid, f, MAX_FINALIZED_SESSIONS);
    MoveKey(s.sessions.Keys, s.finalized.values.Keys, s.overflow.values.Keys, after.values.Keys, sid);
    assert (s.sessions - {sid}).Keys == s.sessions.Keys - {sid};
  }

  lemma FinishBytes(s: Reducer, sid: string, eventID: Option<string>)
    requires BytesOk(s) && sid in s.sessions
    ensures FinishSession(s, sid, eventID).0.stateBytes == SumOver(s.sessions - {sid}, SessionSize) <= MAX_REDUCER_STATE_BYTES
  {
    hide SumOver, InsertionMap.Remember;
    var x := s.sessions[sid];
    assert SessionSize(x.(deleted := true)) == SessionSize(x);
    SumRemove(s.sessions, SessionSize, sid);
  }

  // ----- reduce -----

  predicate RoomForEvent(s: Reducer, sid: string, eventID: string)
    requires sid in s.sessions
  {
    && eventID !in s.sessions[sid].events
    && |s.sessions[sid].events| < MAX_EVENT_IDS_PER_SESSION && Affordable(s, EventOverhead(eventID))
  }

  /** A deletion the reducer accepts: unambiguous, not yet finalized, with room, and its event id new. */
  predicate AcceptsDelete(s: Reducer, e: Event) {
    && e.SessionDeleted? && !e.foreign
    && e.sessionID !in s.finalized.values && CanOpen(s, e.sessionID)
    && (e.eventID.Some? ==> RoomForEvent(OpenSession(s, e.sessionID), e.sessionID, e.eventID.value))
  }

  lemma DeleteProposes(s: Reducer, e: Event)
    requires ReducerOk(s) && e.SessionDeleted? && !AcceptsDelete(s, e)
    ensures var (s', records) := ReduceDeleted(s, e); Proposed(s', e.sessionID, records)
  {
    hide ReducerOk, Proposed, Degrade, MarkOverflow, OpenSession, ReduceFinalized, FinishSession, EventOverhead;
    var sid := e.sessionID;
    var s1 := TouchFinalized(s, sid);
    TouchOk(s, sid);
    if sid in s1.finalized.values {
      ProposeFinalized(s1, sid, MissingField);
      ReduceFinalizedOk(s1, sid, e.eventID, OfKind(sid, Deletion));
    } else {
      DegradeOk(s1, sid, MissingField, true);
      if !CanOpen(s1, sid) {
        MarkOk(s1, sid);
      } else {
        OpenOk(s1, sid);
        OpenTouched(s, sid);
        var live := OpenSession(s1, sid);
        ProposeNothing(live, sid);
        NoteOk(live, sid, e.eventID, OfKind(sid, Deletion));
        AfterNoteOk(NoteEvent(live, sid, e.eventID, OfKind(sid, Deletion)).0, sid);
      }
    }
  }

  lemma OpenTouched(s: Reducer, sid: string)
    ensures CanOpen(TouchFinalized(s, sid), sid) <==> CanOpen(s, sid)
    ensures CanOpen(s, sid) ==>
      OpenSession(TouchFinalized(s, sid), sid) == OpenSession(s, sid).(finalized := TouchFinalized(s, sid).finalized)
  {
  }

  /** The session as it is when the deletion is accepted. */
  function Accepted(s: Reducer, e: Event): Reducer
    requires AcceptsDelete(s, e)
  {
    NoteEvent(OpenSession(TouchFinalized(s, e.sessionID), e.sessionID), e.sessionID, e.eventID, OfKind(e.sessionID, Deletion)).0
  }

  lemma AcceptedFinishes(s: Reducer, e: Event)
    requires ReducerOk(s) && AcceptsDelete(s, e)
    ensures var s1 := Accepted(s, e);
            && ReducerOk(s1) && e.sessionID in s1.sessions
            && ReduceDeleted(s, e) == FinishSession(s1, e.sessionID, e.eventID)
  {
    hide Degrade, MarkOverflow, OpenSession, ReduceFinalized, FinishSession, EventOverhead, FrameOk, CallsOk, StreamOk;
    var sid := e.sessionID;
    TouchOk(s, sid);
    OpenTouched(s, sid);
    var s1 := TouchFinalized(s, sid);
    OpenOk(s1, sid);
    var live := OpenSession(s1, sid);
    assert SessionOk(sid, live.sessions[sid]);
    NoteOk(live, sid, e.eventID, OfKind(sid, Deletion));
  }

  /** The invariant survives every event. */
  lemma ReduceOk(s: Reducer, e: Event)
    requires ReducerOk(s)
    ensures ReducerOk(Reduce(s, e).0)
  {
    hide ReducerOk, ReduceTool, ReduceDeleted, ReduceSessionEvent, BoundedRecords, Evict, AcceptsDelete, Admit, FinishSession, Accepted;
    var (reduced, records) := ReduceValue(s, e);
    if AcceptsDelete(s, e) {
      DeleteIsDelete(s, e);
      AcceptedFinishes(s, e);
      FinishAdmitted(Accepted(s, e), e.sessionID, e.eventID);
      FinishOk(Accepted(s, e), e.sessionID, e.eventID);
    } else {
      ReduceProposes(s, e);
      var sid := if e.Irrelevant? then "" else e.sessionID;
      QuotaOk(reduced, sid, records);
      NothingToEvict(BoundedRecords(reduced, records).0);
    }
  }

  lemma DeleteIsDelete(s: Reducer, e: Event)
    requires AcceptsDelete(s, e)
    ensures e.SessionDeleted?
  {
  }

  lemma NothingToEvict(s: Reducer)
    requires ReducerOk(s)
    ensures Evict(s) == s
  {
    EvictNothing(s);
  }

  lemma ReduceProposes(s: Reducer, e: Event)
    requires ReducerOk(s) && !AcceptsDelete(s, e)
    ensures var (s', records) := ReduceValue(s, e);
            Proposed(s', if e.Irrelevant? then "" else e.sessionID, records)
  {
    hide ReducerOk, Proposed, ReduceTool, ReduceDeleted, ReduceSessionEvent, AcceptsDelete;
    match e
    case Irrelevant => ProposeNothing(s, "");
    case ToolUpdated(_, _, _, _) => ReduceToolOk(s, e);
    case SessionDeleted(_, _, _) => DeleteProposes(s, e);
    case SessionEvent(_, _, _) => ReduceSessionEventOk(s, e);
  }
}
