/** What the OpenCode reducer answers to disabled sessions, malformed events, conflicts and repeated deletions. */
module ReducerVerdicts {
  import opened Util
  import opened InsertionMaps
  import opened OpenCodeReducer
  import opened ReducerInvariant
  import opened ReducerSteps
  import opened ReducerQuota
  import opened ReducerRuns

  lemma LiveIsNotFinalized(s: Reducer, sid: string)
    requires ReducerOk(s) && sid in s.sessions
    ensures sid !in TouchFinalized(s, sid).finalized.values && sid !in s.finalized.values
    ensures !s.sessions[sid].deleted && TouchFinalized(s, sid).sessions == s.sessions
  {
    hide CallsOk, StreamOk, BytesOk, InsertionMap.Touch;
    TouchOk(s, sid);
    assert SessionOk(sid, s.sessions[sid]);
  }

  lemma NothingToBound(s: Reducer)
    ensures BoundedRecords(s, []) == (s, [])
  {
  }

  /** A disabled session says nothing more about tools, turns, failures or compactions. */
  lemma DisabledIsSilent(s: Reducer, e: Event)
    requires ReducerOk(s) && (e.ToolUpdated? || e.SessionEvent?)
    requires e.sessionID in s.sessions && s.sessions[e.sessionID].disabled
    ensures Reduce(s, e).1 == []
  {
    hide ReducerOk, TouchFinalized, NoteEvent, Degrade, ReduceCall, ReduceFinalized, MarkOverflow, BoundedRecords;
    LiveIsNotFinalized(s, e.sessionID);
    NothingToBound(ReduceValue(s, e).0);
  }

  /** A tool event with a missing or contradictory field disables its session, and its stream says so. */
  lemma MalformedDisables(s: Reducer, e: Event)
    requires ReducerOk(s) && e.ToolUpdated? && (e.foreign || e.call.None?) && e.sessionID in s.sessions
    ensures var s' := Reduce(s, e).0;
            e.sessionID in s'.sessions && s'.sessions[e.sessionID].disabled && Degraded(s'.sessions[e.sessionID].stream)
  {
    hide ReducerOk, TouchFinalized, NoteEvent, ReduceCall, ReduceFinalized, MarkOverflow, BoundedGroup, Degraded, AcceptsDelete, Evict, Proposed;
    var sid := e.sessionID;
    LiveIsNotFinalized(s, sid);
    NotADeletion(s, e);
    var (reduced, records) := ReduceValue(s, e);
    assert sid in reduced.sessions && reduced.sessions[sid].disabled;
    ReduceProposes(s, e);
    ProposedParts(reduced, sid, records);
    QuotaOk(reduced, sid, records);
    NothingToEvict(BoundedRecords(reduced, records).0);
    if |records| > 0 {
      BoundedIsGroup(reduced, sid, records);
      GroupKeepsDisabled(reduced, sid, records);
    } else {
      NothingToBound(reduced);
    }
    LiveBound(BoundedRecords(reduced, records).0, sid);
  }

  lemma NotADeletion(s: Reducer, e: Event)
    requires !e.SessionDeleted?
    ensures !AcceptsDelete(s, e)
  {
  }

  lemma GroupKeepsDisabled(s: Reducer, sid: string, records: seq<Record>)
    requires |records| > 0 && sid in s.sessions && s.sessions[sid].disabled
    ensures sid in BoundedGroup(s, sid, records).0.sessions && BoundedGroup(s, sid, records).0.sessions[sid].disabled
  {
  }

  /** The live session holds this event id for another event. */
  predicate Conflicts(s: Reducer, e: Event) {
    && WellFormed(e) && e.eventID.Some? && e.sessionID in s.sessions
    && e.eventID.value in s.sessions[e.sessionID].events
    && s.sessions[e.sessionID].events[e.eventID.value].fingerprint != FingerprintOf(e)
  }

  lemma ConflictProposes(s: Reducer, e: Event)
    requires ReducerOk(s) && Conflicts(s, e)
    ensures var (reduced, records) := ReduceValue(s, e);
            reduced.sessions == s.sessions && AllDegraded(records)
  {
    hide ReducerOk, TouchFinalized, ReduceCall, ReduceFinalized, MarkOverflow, ToolFingerprint, FinishSession;
    LiveIsNotFinalized(s, e.sessionID);
  }

  lemma ConflictIsNoDeletion(s: Reducer, e: Event)
    requires Conflicts(s, e)
    ensures !AcceptsDelete(s, e)
  {
  }

  /** An event id that comes back with another content yields at most a degradation, and moves no call and no id. */
  lemma ConflictOnlyDegrades(s: Reducer, e: Event)
    requires ReducerOk(s) && Conflicts(s, e)
    ensures var (s', out) := Reduce(s, e);
            && AllDegraded(out) && e.sessionID in s'.sessions
            && s'.sessions[e.sessionID].calls == s.sessions[e.sessionID].calls
            && s'.sessions[e.sessionID].events == s.sessions[e.sessionID].events
  {
    hide ReducerOk, ReduceValue, BoundedGroup, AllDegraded, AcceptsDelete, Evict, Proposed;
    var sid := e.sessionID;
    ConflictProposes(s, e);
    ConflictIsNoDeletion(s, e);
    var (reduced, records) := ReduceValue(s, e);
    ReduceProposes(s, e);
    ProposedParts(reduced, sid, records);
    QuotaOk(reduced, sid, records);
    NothingToEvict(BoundedRecords(reduced, records).0);
    if |records| > 0 {
      BoundedIsGroup(reduced, sid, records);
      GroupOnlyDegrades(reduced, sid, records);
      GroupKeepsTables(reduced, sid, records);
    } else {
      NothingToBound(reduced);
      NothingIsDegraded();
    }
  }

  lemma GroupKeepsTables(s: Reducer, sid: string, records: seq<Record>)
    requires |records| > 0 && sid in s.sessions
    ensures var s' := BoundedGroup(s, sid, records).0;
            && sid in s'.sessions && s'.sessions[sid].calls == s.sessions[sid].calls
            && s'.sessions[sid].events == s.sessions[sid].events
  {
  }

  /** A deletion that was accepted emits nothing when it comes again. */
  lemma DeletionReplayIsSilent(s: Reducer, e: Event)
    requires ReducerOk(s) && AcceptsDelete(s, e)
    ensures Reduce(Reduce(s, e).0, e).1 == []
  {
    hide ReducerOk, AcceptsDelete, Reduce;
    DeleteIsDelete(s, e);
    ReduceOk(s, e);
    AcceptedDelete(s, e);
    DeletionRemembered(s, e);
    FinalizedReplay(Reduce(s, e).0, e);
  }

  lemma DeletionRemembered(s: Reducer, e: Event)
    requires ReducerOk(s) && AcceptsDelete(s, e)
    ensures var f := Reduce(s, e).0.finalized;
            && e.SessionDeleted? && !e.foreign && e.sessionID in f.values
            && f.values[e.sessionID].events == if e.eventID.Some? then map[e.eventID.value := OfKind(e.sessionID, Deletion)] else map[]
  {
    hide ReducerOk, ReduceDeleted, BoundedRecords, Evict, Admit, FinishSession, Accepted;
    AcceptedFinishes(s, e);
    FinishAdmitted(Accepted(s, e), e.sessionID, e.eventID);
    FinishOk(Accepted(s, e), e.sessionID, e.eventID);
    RememberedValue(Accepted(s, e), e.sessionID, e.eventID);
  }

  lemma RememberedValue(s: Reducer, sid: string, eventID: Option<string>)
    ensures var f := RememberFinalized(s, sid, eventID, OfKind(sid, Deletion)).finalized;
            && sid in f.values
            && f.values[sid].events == if eventID.Some? then map[eventID.value := OfKind(sid, Deletion)] else map[]
  {
  }

  lemma FinalizedReplay(s: Reducer, e: Event)
    requires ReducerOk(s) && e.SessionDeleted? && !e.foreign && e.sessionID in s.finalized.values
    requires e.eventID.Some? ==>
      e.eventID.value in s.finalized.values[e.sessionID].events
      && s.finalized.values[e.sessionID].events[e.eventID.value] == OfKind(e.sessionID, Deletion)
    ensures Reduce(s, e).1 == []
  {
    hide ReducerOk, Degrade, MarkOverflow, NoteEvent, OpenSession, FinishSession, BoundedRecords, InsertionMap.Touch;
    TouchOk(s, e.sessionID);
    NothingToBound(ReduceValue(s, e).0);
  }

  // ----- inputs too large for their digest -----

  /** Two inputs of the same kind, both reported, with different text. */
  predicate DifferentInputs(a: Input, b: Input) {
    !a.NotCanonical? && !b.NotCanonical? && a.Digestible? == b.Digestible? && a.text != b.text
  }

  /**
   * A new call is reported with its input.  When the same call comes again with
   * another input, that is noticed exactly when the inputs have digests: a call
   * whose input is too large once wrapped is identified without it.
   */
  lemma ChangedInputNoticedIff(s: Reducer, sid: string, eventID: Option<string>, call: ToolCall, input: Input)
    requires sid in s.sessions && call.callID !in s.sessions[sid].calls
    requires |s.sessions[sid].calls| < MAX_CALLS_PER_SESSION && Affordable(s, CallOverhead(call))
    requires DifferentInputs(call.input, input)
    ensures var (s', records) := ReduceCall(s, sid, eventID, call);
            var again := ReduceCall(s', sid, eventID, call.(input := input)).1;
            && records[0] == ToolStarted(sid, eventID, call.callID, call.tool, Some(call.input.text))
            && again == if call.input.Digestible? then [CoverageDegraded(sid, InvalidTransition)] else []
  {
  }
}
