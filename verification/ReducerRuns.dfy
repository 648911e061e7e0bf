/** The main results about the OpenCode reducer, over every run. */
module ReducerRuns {
  import opened Util
  import opened InsertionMaps
  import opened OpenCodeReducer
  import opened ReducerInvariant
  import opened ReducerSteps
  import opened ReducerQuota
  import opened ReducerProgress

  // ----- runs -----

  datatype Step = DoReduce(event: Event) | DoIsFinalized(sessionID: string)

  ghost function Do(s: Reducer, step: Step): (Reducer, seq<Record>) {
    match step
    case DoReduce(e) => Reduce(s, e)
    case DoIsFinalized(sid) => (TouchFinalized(s, sid), [])
  }

  ghost function After(s: Reducer, steps: seq<Step>): Reducer
    decreases |steps|
  {
    if |steps| == 0 then s else After(Do(s, steps[0]).0, steps[1..])
  }

  lemma StepOk(s: Reducer, step: Step)
    requires ReducerOk(s)
    ensures ReducerOk(Do(s, step).0)
  {
    hide ReducerOk, Reduce, TouchFinalized;
    match step
    case DoReduce(e) => ReduceOk(s, e);
    case DoIsFinalized(sid) => TouchOk(s, sid);
  }

  lemma {:induction false} AfterOk(s: Reducer, steps: seq<Step>)
    requires ReducerOk(s)
    ensures ReducerOk(After(s, steps))
    decreases |steps|
  {
    hide ReducerOk, Do;
    if |steps| > 0 {
      StepOk(s, steps[0]);
      AfterOk(Do(s, steps[0]).0, steps[1..]);
    }
  }

  lemma EmptyOk()
    ensures ReducerOk(EMPTY)
  {
  }

  /** In every run: exact byte count within its bound, bounded and disjoint tables, quota respected. */
  lemma RunOk(steps: seq<Step>)
    ensures var s := After(EMPTY, steps);
            && s.stateBytes == SumOver(s.sessions, SessionSize) <= MAX_REDUCER_STATE_BYTES
            && |s.sessions| <= MAX_SESSIONS && |s.finalized.order| <= MAX_FINALIZED_SESSIONS
            && |s.overflow.order| <= MAX_OVERFLOW_SESSION_MARKERS
            && PairwiseDisjoint(s.sessions.Keys, s.finalized.values.Keys, s.overflow.values.Keys)
            && forall j <- s.sessions ::
                 s.sessions[j].recordCount == |s.sessions[j].stream| <= MAX_REDUCED_RECORDS_PER_SESSION - 1
  {
    hide CallsOk, StreamOk;
    EmptyOk();
    AfterOk(EMPTY, steps);
    var s := After(EMPTY, steps);
    assert forall j <- s.sessions :: SessionOk(j, s.sessions[j]);
  }

  // ----- one event -----

  function SessionOf(e: Event): string {
    if e.Irrelevant? then "" else e.sessionID
  }

  lemma ReduceValueAdvanced(s: Reducer, e: Event)
    requires !AcceptsDelete(s, e)
    ensures Advanced(s, ReduceValue(s, e).0, SessionOf(e), [])
  {
    hide Advanced, ReduceTool, ReduceDeleted, ReduceSessionEvent, AcceptsDelete;
    match e
    case Irrelevant => Unmoved(s, s, "");
    case ToolUpdated(_, _, _, _) => ReduceToolAdvanced(s, e);
    case SessionDeleted(_, _, _) => DeleteAdvanced(s, e);
    case SessionEvent(_, _, _) => ReduceSessionEventAdvanced(s, e);
  }

  lemma AdvancedSameSessions(s: Reducer, s1: Reducer, s2: Reducer, sid: string)
    requires Advanced(s, s1, sid, []) && s2.sessions == s1.sessions
    ensures Advanced(s, s2, sid, [])
  {
  }

  lemma GroupKeepsSessions(s: Reducer, sid: string, records: seq<Record>)
    requires |records| > 0
    ensures sid !in s.sessions ==> BoundedGroup(s, sid, records).0.sessions == s.sessions
    ensures sid in s.sessions ==> sid in BoundedGroup(s, sid, records).0.sessions
  {
    hide InsertionMap.Touch, InsertionMap.Set;
  }

  /** An event that is no accepted deletion moves only its own session, by exactly what is emitted. */
  lemma EventAdvances(s: Reducer, e: Event)
    requires ReducerOk(s) && !AcceptsDelete(s, e)
    ensures var (s', out) := Reduce(s, e);
            Advanced(s, s', SessionOf(e), if SessionOf(e) in s'.sessions then out else [])
  {
    hide Advanced, ReducerOk, ReduceValue, BoundedGroup, AcceptsDelete, Proposed, Evict;
    var sid := SessionOf(e);
    var (reduced, records) := ReduceValue(s, e);
    ReduceValueAdvanced(s, e);
    ReduceProposes(s, e);
    ProposedParts(reduced, sid, records);
    QuotaOk(reduced, sid, records);
    NothingToEvict(BoundedRecords(reduced, records).0);
    if |records| > 0 {
      BoundedIsGroup(reduced, sid, records);
      GroupAdvanced(reduced, sid, records);
      GroupKeepsSessions(reduced, sid, records);
      var (bounded, out) := BoundedGroup(reduced, sid, records);
      if sid in reduced.sessions {
        AdvancedTrans(s, reduced, bounded, sid, out);
      } else {
        AdvancedSameSessions(s, reduced, bounded, sid);
      }
    }
  }

  /** What an accepted deletion leaves. */
  lemma AcceptedDelete(s: Reducer, e: Event)
    requires ReducerOk(s) && AcceptsDelete(s, e)
    ensures var (s', out) := Reduce(s, e);
            && out == [SessionFinished(e.sessionID, e.eventID)]
            && e.sessionID !in s'.sessions && e.sessionID in s'.finalized.values
            && (forall j | j != e.sessionID :: Get(s'.sessions, j) == Get(s.sessions, j))
            && s'.finalized.order == Accepted(s, e).finalized.Remember(e.sessionID, s'.finalized.values[e.sessionID], MAX_FINALIZED_SESSIONS).order
  {
    hide ReducerOk, ReduceDeleted, BoundedRecords, Evict, AcceptsDelete, Admit, FinishSession, Accepted, InsertionMap.Remember;
    DeleteIsDelete(s, e);
    AcceptedFinishes(s, e);
    FinishAdmitted(Accepted(s, e), e.sessionID, e.eventID);
    FinishOk(Accepted(s, e), e.sessionID, e.eventID);
    AcceptedSessions(s, e);
    FinishEmits(Accepted(s, e), e.sessionID, e.eventID);
  }

  lemma FinishEmits(s: Reducer, sid: string, eventID: Option<string>)
    requires ReducerOk(s) && sid in s.sessions
    ensures FinishSession(s, sid, eventID).1 == [SessionFinished(sid, eventID)]
    ensures var t := RememberFinalized(s, sid, eventID, OfKind(sid, Deletion)).finalized;
            sid in t.values && t.order == s.finalized.Remember(sid, t.values[sid], MAX_FINALIZED_SESSIONS).order
  {
    hide InsertionMap.Remember, SessionOk, InsertionMap.Valid;
    var f := Finalized(if eventID.Some? then map[eventID.value := OfKind(sid, Deletion)] else map[], false);
    RememberValid(s.finalized, sid, f, MAX_FINALIZED_SESSIONS);
  }

  lemma AcceptedSessions(s: Reducer, e: Event)
    requires AcceptsDelete(s, e)
    ensures forall j | j != e.sessionID :: Get(Accepted(s, e).sessions, j) == Get(s.sessions, j)
    ensures Accepted(s, e).finalized == s.finalized.Touch(e.sessionID)
  {
  }

  /** No record but a deletion's own is a `session_finished`. */
  lemma GroupOutput(s: Reducer, sid: string, records: seq<Record>)
    requires StreamOk(sid, records) && |records| > 0
    ensures StreamOk(sid, BoundedGroup(s, sid, records).1)
  {
    hide InsertionMap.Touch, InsertionMap.Set;
    assert records[0] in records;
  }

  lemma EventOutput(s: Reducer, e: Event)
    requires ReducerOk(s) && !AcceptsDelete(s, e)
    ensures StreamOk(SessionOf(e), Reduce(s, e).1)
  {
    hide ReducerOk, ReduceValue, BoundedGroup, AcceptsDelete, FrameOk, OthersOk, Ready, AllDegraded;
    var (reduced, records) := ReduceValue(s, e);
    ReduceProposes(s, e);
    if |records| > 0 {
      BoundedIsGroup(reduced, SessionOf(e), records);
      GroupOutput(reduced, SessionOf(e), records);
    }
  }

  /**
   * The reserved slot works: a `session_finished` is emitted exactly for the
   * deletions the reducer accepts, whatever was suppressed before, and it is
   * at most the 997th record of its session.
   */
  lemma FinishedIffAccepted(s: Reducer, e: Event)
    requires ReducerOk(s)
    ensures (exists r <- Reduce(s, e).1 :: r.SessionFinished?) <==> AcceptsDelete(s, e)
    ensures AcceptsDelete(s, e) ==> Reduce(s, e).1 == [SessionFinished(e.sessionID, e.eventID)]
    ensures AcceptsDelete(s, e) && e.sessionID in s.sessions ==>
      |s.sessions[e.sessionID].stream| + 1 <= MAX_REDUCED_RECORDS_PER_SESSION
  {
    hide ReducerOk, Reduce, AcceptsDelete;
    if AcceptsDelete(s, e) {
      DeleteIsDelete(s, e);
      AcceptedDelete(s, e);
      assert Reduce(s, e).1[0].SessionFinished?;
      LiveBound(s, e.sessionID);
    } else {
      EventOutput(s, e);
    }
  }

  lemma LiveBound(s: Reducer, sid: string)
    requires ReducerOk(s)
    ensures sid in s.sessions ==> |s.sessions[sid].stream| < MAX_REDUCED_RECORDS_PER_SESSION
    ensures sid in s.sessions && s.sessions[sid].disabled ==> Degraded(s.sessions[sid].stream)
  {
    hide CallsOk, StreamOk, FrameOk;
  }

  /**
   * Suppression is never silent: when a live session's records are not emitted
   * as proposed, or when the session is disabled, its stream already holds a
   * `coverage_degraded`.
   */
  lemma SuppressedIsDegraded(s: Reducer, e: Event)
    requires ReducerOk(s) && !AcceptsDelete(s, e)
    ensures var (s', out) := Reduce(s, e);
            var sid := SessionOf(e);
            sid in s'.sessions && (out != ReduceValue(s, e).1 || s'.sessions[sid].disabled) ==>
              Degraded(s'.sessions[sid].stream)
  {
    hide ReducerOk, ReduceValue, BoundedGroup, AcceptsDelete, Degraded, Proposed, Evict;
    var sid := SessionOf(e);
    var (reduced, records) := ReduceValue(s, e);
    ReduceProposes(s, e);
    ProposedParts(reduced, sid, records);
    QuotaOk(reduced, sid, records);
    NothingToEvict(BoundedRecords(reduced, records).0);
    LiveBound(BoundedRecords(reduced, records).0, sid);
    if |records| > 0 {
      BoundedIsGroup(reduced, sid, records);
      GroupKeepsSessions(reduced, sid, records);
      if sid in reduced.sessions {
        SuppressedDisables(reduced, sid, records);
      }
    }
  }

  lemma SuppressedDisables(s: Reducer, sid: string, records: seq<Record>)
    requires Proposed(s, sid, records) && |records| > 0 && sid in s.sessions
    ensures var (s', out) := BoundedGroup(s, sid, records);
            sid in s'.sessions && (out != records ==> s'.sessions[sid].disabled)
  {
    hide FrameOk, OthersOk, CallsOk, Degraded, StreamOk;
  }

  // ----- tool calls -----

  /**
   * In a live session the records of every call are a prefix of `tool_started`,
   * `tool_finished`; while the session is enabled they are exactly what the
   * status of the call calls for, with its outcome and its input.
   */
  lemma CallsFollowLifecycle(steps: seq<Step>, sid: string, c: string)
    requires sid in After(EMPTY, steps).sessions
    ensures var x := After(EMPTY, steps).sessions[sid];
            && Lifecycle(Trace(x.stream, c))
            && (!x.disabled ==> |Trace(x.stream, c)| == Emitted(x.calls, c))
            && (!x.disabled && c in x.calls ==> Faithful(x.calls[c], Trace(x.stream, c)))
  {
    EmptyOk();
    AfterOk(EMPTY, steps);
    var x := After(EMPTY, steps).sessions[sid];
    assert SessionOk(sid, x);
    assert CallOk(x.calls, x.disabled, x.stream, c);
  }

  /** The session stays live throughout the run. */
  ghost predicate LiveThroughout(s: Reducer, steps: seq<Step>, sid: string)
    decreases |steps|
  {
    sid in s.sessions && (|steps| > 0 ==> LiveThroughout(Do(s, steps[0]).0, steps[1..], sid))
  }

  lemma StepGrows(s: Reducer, step: Step, sid: string)
    requires ReducerOk(s) && sid in s.sessions && sid in Do(s, step).0.sessions
    ensures exists out :: Grew(s.sessions[sid], Do(s, step).0.sessions[sid], out)
    ensures Grew(s.sessions[sid], Do(s, step).0.sessions[sid],
                 if step.DoReduce? && SessionOf(step.event) == sid then Do(s, step).1 else [])
  {
    hide ReducerOk, Reduce, Grew, AcceptsDelete;
    var s' := Do(s, step).0;
    GrewNothing(s.sessions[sid]);
    match step
    case DoIsFinalized(_) =>
    case DoReduce(e) =>
      if AcceptsDelete(s, e) {
        DeleteIsDelete(s, e);
        AcceptedDelete(s, e);
        assert Get(s'.sessions, sid) == Get(s.sessions, sid);
      } else {
        EventAdvances(s, e);
        assert sid != SessionOf(e) ==> Get(s'.sessions, sid) == Get(s.sessions, sid);
      }
  }

  lemma GrewNothing(x: Session)
    ensures Grew(x, x, [])
  {
    assert x.stream + [] == x.stream;
  }

  /** Over a lifetime: the stream only grows, calls only move forward, recorded event ids stay. */
  lemma {:induction false} LifetimeGrows(s: Reducer, steps: seq<Step>, sid: string) returns (out: seq<Record>)
    requires ReducerOk(s) && LiveThroughout(s, steps, sid)
    ensures sid in After(s, steps).sessions && Grew(s.sessions[sid], After(s, steps).sessions[sid], out)
    decreases |steps|
  {
    hide ReducerOk, Do, Grew;
    if |steps| == 0 {
      GrewNothing(s.sessions[sid]);
      out := [];
    } else {
      var s' := Do(s, steps[0]).0;
      StepOk(s, steps[0]);
      assert LiveThroughout(s', steps[1..], sid);
      StepGrows(s, steps[0], sid);
      var more := LifetimeGrows(s', steps[1..], sid);
      var first :| Grew(s.sessions[sid], s'.sessions[sid], first);
      GrewTrans(s.sessions[sid], s'.sessions[sid], After(s', steps[1..]).sessions[sid], first, more);
      out := first + more;
    }
  }

  /** The status of a call never falls and an outcome never changes, over a whole lifetime. */
  lemma StatusNeverFalls(s: Reducer, steps: seq<Step>, sid: string, c: string)
    requires ReducerOk(s) && LiveThroughout(s, steps, sid) && c in s.sessions[sid].calls
    ensures sid in After(s, steps).sessions && c in After(s, steps).sessions[sid].calls
    ensures var was, now := s.sessions[sid].calls[c], After(s, steps).sessions[sid].calls[c];
            Rank(now.status) >= Rank(was.status) && (Terminal(was.status) ==> now.status == was.status)
  {
    hide ReducerOk;
    var out := LifetimeGrows(s, steps, sid);
  }

  // ----- replays -----

  predicate WellFormed(e: Event) {
    match e
    case Irrelevant => false
    case ToolUpdated(_, _, foreign, call) => !foreign && call.Some?
    case SessionDeleted(_, _, foreign) => !foreign
    case SessionEvent(_, _, _) => true
  }

  function FingerprintOf(e: Event): Fingerprint
    requires WellFormed(e)
  {
    match e
    case ToolUpdated(sid, _, _, call) => ToolFingerprint(sid, call.value)
    case SessionDeleted(sid, _, _) => OfKind(sid, Deletion)
    case SessionEvent(sid, _, kind) => OfKind(sid, kind)
  }

  /** The event id is recorded in the live session, for this very event. */
  predicate Recorded(s: Reducer, e: Event) {
    && WellFormed(e) && e.eventID.Some? && e.sessionID in s.sessions
    && e.eventID.value in s.sessions[e.sessionID].events
    && s.sessions[e.sessionID].events[e.eventID.value].fingerprint == FingerprintOf(e)
  }

  /** A recorded event emits nothing when it comes again. */
  lemma RecordedIsSilent(s: Reducer, e: Event)
    requires ReducerOk(s) && Recorded(s, e)
    ensures Reduce(s, e).1 == []
  {
    hide SessionOk, BytesOk, ToolFingerprint, ReduceCall, Degrade, InsertionMap.Touch;
    TouchOk(s, e.sessionID);
    assert e.sessionID !in s.finalized.values;
    assert ReduceValue(s, e).1 == [];
  }

  lemma RecordedStays(s: Reducer, steps: seq<Step>, e: Event)
    requires ReducerOk(s) && Recorded(s, e) && LiveThroughout(s, steps, e.sessionID)
    ensures Recorded(After(s, steps), e)
  {
    hide ReducerOk;
    var out := LifetimeGrows(s, steps, e.sessionID);
  }

  /** Re-delivering a recorded event emits nothing, at any later point of the session's lifetime. */
  lemma RedeliveryIsSilent(s: Reducer, steps: seq<Step>, e: Event)
    requires ReducerOk(s) && Recorded(s, e) && LiveThroughout(s, steps, e.sessionID)
    ensures Reduce(After(s, steps), e).1 == []
  {
    hide ReducerOk, Recorded, Reduce;
    RecordedStays(s, steps, e);
    AfterOk(s, steps);
    RecordedIsSilent(After(s, steps), e);
  }

  lemma NotedIsRecorded(s: Reducer, e: Event)
    requires WellFormed(e) && e.eventID.Some? && e.sessionID in s.sessions
    requires NoteEvent(s, e.sessionID, e.eventID, FingerprintOf(e)).1 == New
    ensures Recorded(NoteEvent(s, e.sessionID, e.eventID, FingerprintOf(e)).0, e)
  {
  }

  lemma GrewKeepsRecorded(s: Reducer, s': Reducer, e: Event, out: seq<Record>)
    requires Recorded(s, e) && Advanced(s, s', e.sessionID, out)
    ensures Recorded(s', e)
  {
  }

  lemma DegradeOnlyDegrades(s: Reducer, sid: string, reason: Reason, disable: bool)
    ensures AllDegraded(Degrade(s, sid, reason, disable).1) && AllDegraded(MarkOverflow(s, sid).1)
  {
  }

  /** What is proposed beyond a degradation was noted in the replay table first. */
  lemma ProposedIsRecorded(s: Reducer, e: Event)
    requires ReducerOk(s) && WellFormed(e) && e.eventID.Some? && !AcceptsDelete(s, e)
    requires !AllDegraded(ReduceValue(s, e).1)
    ensures Recorded(ReduceValue(s, e).0, e)
  {
    hide ReducerOk, NoteEvent, OpenSession, ReduceCall, Recorded, Advanced, MarkOverflow, Degrade, ToolFingerprint, FingerprintOf,
         TouchFinalized, CanOpen, FinishSession, EventOverhead, RoomForEvent;
    var sid := e.sessionID;
    var s1 := TouchFinalized(s, sid);
    OpenTouchedIs(s, sid);
    DegradeOnlyDegrades(s1, sid, MissingField, true);
    if sid !in s1.finalized.values && CanOpen(s1, sid) {
      OpenedIsLive(s1, sid);
      var live := OpenSession(s1, sid);
      var (noted, replay) := NoteEvent(live, sid, e.eventID, FingerprintOf(e));
      FingerprintIs(e);
      DegradeOnlyDegrades(noted, sid, InvalidTransition, false);
      DegradeOnlyDegrades(noted, sid, Overflow, true);
      if replay == New {
        NotedIsRecorded(live, e);
        NoteAdvanced(live, sid, e.eventID, FingerprintOf(e));
        if e.ToolUpdated? {
          CallAdvanced(noted, sid, e.eventID, e.call.value);
          GrewKeepsRecorded(noted, ReduceCall(noted, sid, e.eventID, e.call.value).0, e, []);
        }
        if e.SessionDeleted? {
          NewDeletion(s, e);
        }
      }
    }
  }

  lemma FingerprintIs(e: Event)
    requires WellFormed(e)
    ensures e.ToolUpdated? ==> FingerprintOf(e) == ToolFingerprint(e.sessionID, e.call.value)
    ensures e.SessionDeleted? ==> FingerprintOf(e) == OfKind(e.sessionID, Deletion)
    ensures e.SessionEvent? ==> FingerprintOf(e) == OfKind(e.sessionID, e.kind)
  {
  }

  lemma OpenTouchedIs(s: Reducer, sid: string)
    requires ReducerOk(s)
    ensures TouchFinalized(s, sid).finalized.values == s.finalized.values
    ensures CanOpen(TouchFinalized(s, sid), sid) <==> CanOpen(s, sid)
  {
    hide ReducerOk;
    TouchOk(s, sid);
    OpenTouched(s, sid);
  }

  /** A deletion whose event id is new is an accepted one. */
  lemma NewDeletion(s: Reducer, e: Event)
    requires ReducerOk(s) && WellFormed(e) && e.eventID.Some? && e.SessionDeleted?
    requires e.sessionID !in s.finalized.values && CanOpen(s, e.sessionID)
    requires NoteEvent(OpenSession(TouchFinalized(s, e.sessionID), e.sessionID), e.sessionID, e.eventID, OfKind(e.sessionID, Deletion)).1 == New
    ensures AcceptsDelete(s, e)
  {
    hide ReducerOk, OpenSession;
    OpenTouched(s, e.sessionID);
  }

  lemma GroupOnlyDegrades(s: Reducer, sid: string, records: seq<Record>)
    requires |records| > 0 && AllDegraded(records)
    ensures AllDegraded(BoundedGroup(s, sid, records).1)
  {
    hide InsertionMap.Touch, InsertionMap.Set;
    assert records[0] in records;
  }

  /** An event that emits anything but a degradation is recorded from then on, if it carries an id. */
  lemma FirstDeliveryRecords(s: Reducer, e: Event)
    requires ReducerOk(s) && WellFormed(e) && e.eventID.Some?
    requires !AllDegraded(Reduce(s, e).1) && e.sessionID in Reduce(s, e).0.sessions
    ensures Recorded(Reduce(s, e).0, e)
  {
    hide ReducerOk, ReduceValue, BoundedGroup, AcceptsDelete, Recorded, Proposed, Evict, Advanced, AllDegraded;
    var sid := e.sessionID;
    assert !AcceptsDelete(s, e) by {
      if AcceptsDelete(s, e) {
        DeleteIsDelete(s, e);
        AcceptedDelete(s, e);
      }
    }
    var (reduced, records) := ReduceValue(s, e);
    ReduceProposes(s, e);
    ProposedParts(reduced, sid, records);
    QuotaOk(reduced, sid, records);
    NothingToEvict(BoundedRecords(reduced, records).0);
    NothingIsDegraded();
    assert |records| > 0;
    BoundedIsGroup(reduced, sid, records);
    GroupKeepsSessions(reduced, sid, records);
    GroupAdvanced(reduced, sid, records);
    if AllDegraded(records) {
      GroupOnlyDegrades(reduced, sid, records);
    } else {
      ProposedIsRecorded(s, e);
      GrewKeepsRecorded(reduced, BoundedGroup(reduced, sid, records).0, e, BoundedGroup(reduced, sid, records).1);
    }
  }

  lemma NothingIsDegraded()
    ensures AllDegraded([])
  {
  }

  // ----- finalized sessions -----

  /** A finalized session emits at most one record, a `coverage_degraded`, until it is opened again. */
  lemma FinalizedReportsOnce(s: Reducer, e: Event)
    requires ReducerOk(s) && !e.Irrelevant? && e.sessionID in s.finalized.values
    ensures var (s', out) := Reduce(s, e);
            var was := s.finalized.values[e.sessionID].degradationReported;
            && e.sessionID in s'.finalized.values
            && (was ==> out == [] && s'.finalized.values[e.sessionID].degradationReported)
            && (out != [] ==> |out| == 1 && out[0].CoverageDegraded? && s'.finalized.values[e.sessionID].degradationReported)
  {
    hide ReducerOk, SessionOk, BytesOk, ToolFingerprint, ReduceCall, Degrade, InsertionMap.Touch, MarkOverflow, NoteEvent,
         OpenSession, CanOpen, BoundedRecords;
    var sid := e.sessionID;
    TouchOk(s, sid);
    var (reduced, records) := ReduceValue(s, e);
    FinalizedProposes(s, e);
    NothingToBound(reduced);
    if |records| > 0 {
      BoundedIsGroup(reduced, sid, records);
      TouchOk(reduced, sid);
    }
    NotLive(s, sid);
    EvictNothing(BoundedRecords(reduced, records).0);
  }

  lemma NothingToBound(s: Reducer)
    ensures BoundedRecords(s, []) == (s, [])
  {
  }

  /** What an event of a finalized session may propose, and what it leaves alone. */
  ghost predicate FinalizedStep(s: Reducer, sid: string, reduced: Reducer, records: seq<Record>) {
    && ReducerOk(reduced) && sid in s.finalized.values && sid in reduced.finalized.values && sid !in reduced.sessions
    && reduced.finalized.values[sid].degradationReported == s.finalized.values[sid].degradationReported
    && reduced.finalized.order == TouchFinalized(s, sid).finalized.order
    && |records| <= 1 && StreamOk(sid, records) && AllDegraded(records)
  }

  lemma FinalizedTouched(s: Reducer, sid: string)
    requires ReducerOk(s) && sid in s.finalized.values
    ensures FinalizedStep(s, sid, TouchFinalized(s, sid), [])
    ensures FinalizedStep(s, sid, TouchFinalized(s, sid), [CoverageDegraded(sid, MissingField)])
  {
    hide ReducerOk, InsertionMap.Touch;
    TouchOk(s, sid);
    NotLive(s, sid);
  }

  lemma FinalizedChecked(s: Reducer, sid: string, eventID: Option<string>, fingerprint: Fingerprint)
    requires ReducerOk(s) && sid in s.finalized.values
    ensures sid in TouchFinalized(s, sid).finalized.values
    ensures var (reduced, records) := ReduceFinalized(TouchFinalized(s, sid), sid, eventID, fingerprint);
            FinalizedStep(s, sid, reduced, records)
  {
    hide ReducerOk, InsertionMap.Touch;
    TouchOk(s, sid);
    NotLive(s, sid);
    ReduceFinalizedOk(TouchFinalized(s, sid), sid, eventID, fingerprint);
  }

  lemma FinalizedProposes(s: Reducer, e: Event)
    requires ReducerOk(s) && !e.Irrelevant? && e.sessionID in s.finalized.values
    ensures var (reduced, records) := ReduceValue(s, e); FinalizedStep(s, e.sessionID, reduced, records)
  {
    hide ReducerOk, FinalizedStep, ToolFingerprint, ReduceCall, Degrade, TouchFinalized, MarkOverflow, NoteEvent, OpenSession,
         CanOpen, ReduceFinalized, FinishSession;
    var sid := e.sessionID;
    FinalizedTouched(s, sid);
    FinalizedChecked(s, sid, e.eventID, OfKind(sid, if e.SessionEvent? then e.kind else Deletion));
    if e.ToolUpdated? && e.call.Some? {
      FinalizedChecked(s, sid, e.eventID, ToolFingerprint(sid, e.call.value));
    }
  }

  // ----- the finalized table is a least-recently-used list -----

  /** The step uses the finalized entry of its session: reads it or writes it. */
  predicate Uses(s: Reducer, step: Step) {
    match step
    case DoIsFinalized(sid) => sid in s.finalized.values
    case DoReduce(e) => !e.Irrelevant? && (e.sessionID in s.finalized.values || AcceptsDelete(s, e))
  }

  function StepSession(step: Step): string {
    match step
    case DoIsFinalized(sid) => sid
    case DoReduce(e) => SessionOf(e)
  }

  ghost function FinalizedUses(s: Reducer, steps: seq<Step>): seq<string>
    decreases |steps|
  {
    if |steps| == 0 then []
    else (if Uses(s, steps[0]) then [StepSession(steps[0])] else []) + FinalizedUses(Do(s, steps[0]).0, steps[1..])
  }

  lemma TouchTwice<V>(m: InsertionMap<string, V>, k: string, n: InsertionMap<string, V>)
    requires m.Valid() && n.order == m.Touch(k).order && (k in m.values <==> k in n.values)
    ensures n.Touch(k).order == n.order
  {
    if k in m.values {
      WithoutIs(m.order, k);
      WithoutConcat(Without(m.order, k), [k], k);
    }
  }

  lemma FinalizedValid(s: Reducer)
    requires ReducerOk(s)
    ensures s.finalized.Valid() && |s.finalized.order| <= MAX_FINALIZED_SESSIONS
  {
  }

  /** An event of a finalized session makes its entry the newest, and does nothing else to the order. */
  lemma FinalizedEventOrder(s: Reducer, e: Event)
    requires ReducerOk(s) && !e.Irrelevant? && e.sessionID in s.finalized.values
    ensures Reduce(s, e).0.finalized.order == s.finalized.Touch(e.sessionID).order
  {
    hide ReducerOk, ReduceValue, InsertionMap.Touch, InsertionMap.Valid;
    var sid := e.sessionID;
    FinalizedProposes(s, e);
    FinalizedValid(s);
    var (reduced, records) := ReduceValue(s, e);
    if |records| > 0 {
      BoundedIsGroup(reduced, sid, records);
      TouchTwice(s.finalized, sid, reduced.finalized);
      TouchOk(reduced, sid);
    }
  }

  /** An event of any other session leaves the finalized table as it is, unless it is an accepted deletion. */
  lemma OtherEventOrder(s: Reducer, e: Event)
    requires ReducerOk(s) && !AcceptsDelete(s, e) && (e.Irrelevant? || e.sessionID !in s.finalized.values)
    ensures Reduce(s, e).0.finalized == s.finalized
  {
    hide ReducerOk, ReduceValue, AcceptsDelete, BoundedGroup;
    var (reduced, records) := ReduceValue(s, e);
    ReduceProposes(s, e);
    ProposedParts(reduced, SessionOf(e), records);
    ReduceLeavesFinalized(s, e);
    if |records| > 0 {
      BoundedIsGroup(reduced, SessionOf(e), records);
      GroupLeavesFinalized(reduced, SessionOf(e), records);
    }
  }

  lemma GroupLeavesFinalized(s: Reducer, sid: string, records: seq<Record>)
    requires |records| > 0 && sid !in s.finalized.values
    ensures BoundedGroup(s, sid, records).0.finalized == s.finalized
  {
  }

  lemma OperationsLeaveFinalized(s: Reducer, sid: string, reason: Reason, disable: bool)
    ensures MarkOverflow(s, sid).0.finalized == s.finalized
    ensures CanOpen(s, sid) ==> OpenSession(s, sid).finalized == s.finalized
    ensures Degrade(s, sid, reason, disable).0.finalized == s.finalized
  {
    hide InsertionMap.Touch, InsertionMap.Remember, InsertionMap.Delete, SessionOverhead, Affordable;
  }

  lemma NoteLeavesFinalized(s: Reducer, sid: string, eventID: Option<string>, fingerprint: Fingerprint)
    requires sid in s.sessions
    ensures var s' := NoteEvent(s, sid, eventID, fingerprint).0; s'.finalized == s.finalized && sid in s'.sessions
  {
    hide EventOverhead, Affordable;
  }

  lemma CallLeavesFinalized(s: Reducer, sid: string, eventID: Option<string>, call: ToolCall)
    requires sid in s.sessions
    ensures ReduceCall(s, sid, eventID, call).0.finalized == s.finalized
  {
    hide Degrade, CallOverhead, Affordable;
    OperationsLeaveFinalized(s, sid, Overflow, true);
    OperationsLeaveFinalized(s, sid, InvalidTransition, false);
  }

  lemma NotedLeavesFinalized(s: Reducer, e: Event, fingerprint: Fingerprint)
    requires !e.Irrelevant? && CanOpen(s, e.sessionID)
    ensures e.sessionID in OpenSession(s, e.sessionID).sessions
    ensures var noted := NoteEvent(OpenSession(s, e.sessionID), e.sessionID, e.eventID, fingerprint).0;
            && noted.finalized == s.finalized && e.sessionID in noted.sessions
            && Degrade(noted, e.sessionID, InvalidTransition, false).0.finalized == s.finalized
            && Degrade(noted, e.sessionID, Overflow, true).0.finalized == s.finalized
            && (e.ToolUpdated? && e.call.Some? ==> ReduceCall(noted, e.sessionID, e.eventID, e.call.value).0.finalized == s.finalized)
  {
    hide OpenSession, NoteEvent, Degrade, ReduceCall, CanOpen;
    var sid := e.sessionID;
    OpenedIsLive(s, sid);
    OperationsLeaveFinalized(s, sid, Overflow, true);
    NoteLeavesFinalized(OpenSession(s, sid), sid, e.eventID, fingerprint);
    var noted := NoteEvent(OpenSession(s, sid), sid, e.eventID, fingerprint).0;
    OperationsLeaveFinalized(noted, sid, InvalidTransition, false);
    OperationsLeaveFinalized(noted, sid, Overflow, true);
    if e.ToolUpdated? && e.call.Some? {
      CallLeavesFinalized(noted, sid, e.eventID, e.call.value);
    }
  }

  lemma DeleteLeavesFinalized(s: Reducer, e: Event)
    requires e.SessionDeleted? && !AcceptsDelete(s, e) && e.sessionID !in s.finalized.values
    ensures ReduceDeleted(s, e).0.finalized == s.finalized
  {
    hide OpenSession, Degrade, CanOpen, MarkOverflow, FinishSession, TouchFinalized, EventOverhead;
    var sid := e.sessionID;
    TouchAbsent(s.finalized, sid);
    TouchIsNothing(s, sid);
    OperationsLeaveFinalized(s, sid, MissingField, true);
    if CanOpen(s, sid) {
      NotedLeavesFinalized(s, e, OfKind(sid, Deletion));
    }
  }

  lemma ReduceLeavesFinalized(s: Reducer, e: Event)
    requires ReducerOk(s) && !AcceptsDelete(s, e) && (e.Irrelevant? || e.sessionID !in s.finalized.values)
    ensures ReduceValue(s, e).0.finalized == s.finalized
    ensures |ReduceValue(s, e).1| > 0 ==> !e.Irrelevant?
  {
    hide ReducerOk, OpenSession, NoteEvent, Degrade, ReduceCall, CanOpen, MarkOverflow, ToolFingerprint, FinishSession, TouchFinalized,
         EventOverhead, ReduceDeleted;
    if e.SessionDeleted? {
      DeleteLeavesFinalized(s, e);
    } else if !e.Irrelevant? {
      var sid := e.sessionID;
      TouchAbsent(s.finalized, sid);
      TouchIsNothing(s, sid);
      OperationsLeaveFinalized(s, sid, MissingField, true);
      if CanOpen(s, sid) {
        if e.SessionEvent? {
          NotedLeavesFinalized(s, e, OfKind(sid, e.kind));
        }
        if e.ToolUpdated? && e.call.Some? {
          NotedLeavesFinalized(s, e, ToolFingerprint(sid, e.call.value));
        }
      }
    }
  }

  lemma TouchIsNothing(s: Reducer, sid: string)
    ensures sid !in s.finalized.values ==> TouchFinalized(s, sid) == s
  {
  }

  lemma StepIsLru(s: Reducer, step: Step, uses: seq<string>)
    requires ReducerOk(s) && MostRecent(s.finalized.order, uses, MAX_FINALIZED_SESSIONS)
    ensures MostRecent(Do(s, step).0.finalized.order,
                       uses + if Uses(s, step) then [StepSession(step)] else [], MAX_FINALIZED_SESSIONS)
  {
    hide ReducerOk, Reduce, MostRecent, AcceptsDelete, InsertionMap.Touch, InsertionMap.Remember, Accepted, InsertionMap.Valid;
    FinalizedValid(s);
    var sid := StepSession(step);
    assert uses + [] == uses;
    if Uses(s, step) && sid in s.finalized.values {
      TouchIsLru(s.finalized, uses, sid, MAX_FINALIZED_SESSIONS);
      if step.DoReduce? {
        FinalizedEventOrder(s, step.event);
      }
    } else if Uses(s, step) {
      var e := step.event;
      DeleteIsDelete(s, e);
      AcceptedDelete(s, e);
      AcceptedSessions(s, e);
      TouchAbsent(s.finalized, sid);
      RememberIsLru(s.finalized, uses, sid, Reduce(s, e).0.finalized.values[sid], MAX_FINALIZED_SESSIONS);
    } else if step.DoReduce? {
      assert !AcceptsDelete(s, step.event) by {
        if AcceptsDelete(s, step.event) {
          DeleteIsDelete(s, step.event);
        }
      }
      OtherEventOrder(s, step.event);
    } else {
      TouchAbsent(s.finalized, sid);
    }
  }

  lemma TouchAbsent<V>(m: InsertionMap<string, V>, k: string)
    ensures k !in m.values ==> m.Touch(k) == m
  {
  }

  /** Over every run the finalized table is the list of the 1024 sessions finalized or asked about last. */
  lemma {:induction false} FinalizedIsLru(s: Reducer, steps: seq<Step>, uses: seq<string>)
    requires ReducerOk(s) && MostRecent(s.finalized.order, uses, MAX_FINALIZED_SESSIONS)
    ensures MostRecent(After(s, steps).finalized.order, uses + FinalizedUses(s, steps), MAX_FINALIZED_SESSIONS)
    decreases |steps|
  {
    hide ReducerOk, Do, MostRecent, Uses;
    if |steps| == 0 {
      assert uses + [] == uses;
    } else {
      var used := if Uses(s, steps[0]) then [StepSession(steps[0])] else [];
      StepOk(s, steps[0]);
      StepIsLru(s, steps[0], uses);
      FinalizedIsLru(Do(s, steps[0]).0, steps[1..], uses + used);
      assert uses + used + FinalizedUses(Do(s, steps[0]).0, steps[1..]) == uses + (used + FinalizedUses(Do(s, steps[0]).0, steps[1..]));
    }
  }
}
