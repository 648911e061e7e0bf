/**
 * How one event moves a live session of the OpenCode reducer: forward only, and
 * by what it emits.
 *
 * A session that is live both before and after an event is the same session
 * one step on: no event id is forgotten, no call changes its name or lowers its
 * rank, and the records emitted are exactly what the change of the call
 * accounts for.  The lemmas climb from the call to the session to the event.
 */
module ReducerProgress {
  import opened Util
  import opened InsertionMaps
  import opened OpenCodeReducer
  import opened ReducerInvariant
  import opened ReducerSteps
  import opened ReducerQuota

  // ----- how a live session moves -----

  /** `now` extends `was`: the stream by `out`, calls only forward, event ids for good. */
  ghost predicate Grew(was: Session, now: Session, out: seq<Record>) {
    && now.stream == was.stream + out
    && (forall c <- was.calls :: c in now.calls && Forward(was.calls[c], now.calls[c]))
    && (forall id <- was.events :: id in now.events && now.events[id] == was.events[id])
    && (was.disabled ==> now.disabled)
  }

  /** A call keeps its identity, its rank never falls and an outcome is final. */
  predicate Forward(was: Call, now: Call) {
    && now.identity == was.identity && Rank(now.status) >= Rank(was.status)
    && (Terminal(was.status) ==> now.status == was.status)
  }

  /** A session opened after it was marked starts with the notice it got then. */
  function Opening(s: Reducer, sid: string): seq<Record> {
    if sid in s.overflow.values then [CoverageDegraded(sid, Overflow)] else []
  }

  /** From `s` to `s'` only `sid` moved, and it emitted `out`. */
  ghost predicate Advanced(s: Reducer, s': Reducer, sid: string, out: seq<Record>) {
    && (forall j | j != sid :: Get(s'.sessions, j) == Get(s.sessions, j))
    && (sid in s.sessions ==> sid in s'.sessions && Grew(s.sessions[sid], s'.sessions[sid], out))
    && (sid !in s.sessions && sid in s'.sessions ==> s'.sessions[sid].stream == Opening(s, sid) + out)
  }

  lemma GrewTrans(x: Session, y: Session, z: Session, a: seq<Record>, b: seq<Record>)
    requires Grew(x, y, a) && Grew(y, z, b)
    ensures Grew(x, z, a + b)
  {
    assert x.stream + a + b == x.stream + (a + b);
  }

  lemma AdvancedTrans(s: Reducer, s1: Reducer, s2: Reducer, sid: string, out: seq<Record>)
    requires Advanced(s, s1, sid, []) && Advanced(s1, s2, sid, out)
    requires sid in s1.sessions || s1.overflow == s.overflow
    ensures Advanced(s, s2, sid, out)
  {
    hide Grew;
    forall j | j != sid
      ensures Get(s2.sessions, j) == Get(s.sessions, j)
    {
      assert Get(s1.sessions, j) == Get(s.sessions, j);
    }
    assert [] + out == out;
    if sid in s.sessions {
      GrewTrans(s.sessions[sid], s1.sessions[sid], s2.sessions[sid], [], out);
    } else if sid in s1.sessions {
      GrewStream(s1.sessions[sid], s2.sessions[sid], out);
      assert Opening(s, sid) + [] == Opening(s, sid);
    }
  }

  lemma GrewStream(x: Session, y: Session, out: seq<Record>)
    requires Grew(x, y, out)
    ensures y.stream == x.stream + out
  {
  }

  lemma Unmoved(s: Reducer, s': Reducer, sid: string)
    requires s'.sessions == s.sessions
    ensures Advanced(s, s', sid, [])
  {
    assert forall x: Session :: x.stream + [] == x.stream;
  }

  lemma PutAdvanced(s: Reducer, s': Reducer, sid: string, x: Session, out: seq<Record>)
    requires sid in s.sessions && s'.sessions == s.sessions[sid := x] && Grew(s.sessions[sid], x, out)
    ensures Advanced(s, s', sid, out)
  {
    hide Grew;
  }

  lemma OpenAdvanced(s: Reducer, sid: string)
    requires CanOpen(s, sid)
    ensures Advanced(s, OpenSession(s, sid), sid, [])
  {
    if sid in s.sessions {
      Unmoved(s, OpenSession(s, sid), sid);
    } else {
      assert Opening(s, sid) + [] == Opening(s, sid);
    }
  }

  lemma DegradeAdvanced(s: Reducer, sid: string, reason: Reason, disable: bool)
    ensures Advanced(s, Degrade(s, sid, reason, disable).0, sid, [])
  {
    hide Advanced, OpenSession, MarkOverflow;
    if CanOpen(s, sid) {
      OpenAdvanced(s, sid);
      OpenedIsLive(s, sid);
      var live := OpenSession(s, sid);
      Unmoved(live, live, sid);
      var x := live.sessions[sid].(disabled := true);
      assert x.stream == live.sessions[sid].stream + [];
      PutAdvanced(live, PutSession(live, sid, x), sid, x, []);
      AdvancedTrans(s, live, PutSession(live, sid, x), sid, []);
      AdvancedTrans(s, live, live, sid, []);
    } else {
      MarkKeepsSessions(s, sid);
      Unmoved(s, MarkOverflow(s, sid).0, sid);
    }
  }

  lemma OpenedIsLive(s: Reducer, sid: string)
    requires CanOpen(s, sid)
    ensures sid in OpenSession(s, sid).sessions
  {
  }

  lemma MarkKeepsSessions(s: Reducer, sid: string)
    ensures MarkOverflow(s, sid).0.sessions == s.sessions
  {
  }

  lemma NoteAdvanced(s: Reducer, sid: string, eventID: Option<string>, fingerprint: Fingerprint)
    requires sid in s.sessions
    ensures var s' := NoteEvent(s, sid, eventID, fingerprint).0; Advanced(s, s', sid, []) && sid in s'.sessions
  {
    var x := s.sessions[sid];
    var s' := NoteEvent(s, sid, eventID, fingerprint).0;
    assert x.stream + [] == x.stream;
    if s' == s {
      Unmoved(s, s', sid);
    } else {
      hide Advanced;
      PutAdvanced(s, s', sid, s'.sessions[sid], []);
    }
  }

  lemma CallAdvanced(s: Reducer, sid: string, eventID: Option<string>, call: ToolCall)
    requires sid in s.sessions
    ensures Advanced(s, ReduceCall(s, sid, eventID, call).0, sid, [])
  {
    hide Advanced, Degrade, Affordable, CallOverhead;
    DegradeAdvanced(s, sid, Overflow, true);
    DegradeAdvanced(s, sid, InvalidTransition, false);
    var x := s.sessions[sid];
    var s' := ReduceCall(s, sid, eventID, call).0;
    assert x.stream + [] == x.stream;
    if call.callID in x.calls {
      if Acceptable(x.calls[call.callID], call) {
        PutAdvanced(s, s', sid, s'.sessions[sid], []);
      }
    } else if |x.calls| < MAX_CALLS_PER_SESSION && Affordable(s, CallOverhead(call)) {
      PutAdvanced(s, s', sid, s'.sessions[sid], []);
    }
  }

  lemma ReduceFinalizedUnmoved(s: Reducer, sid: string, eventID: Option<string>, fingerprint: Fingerprint)
    requires sid in s.finalized.values
    ensures Advanced(s, ReduceFinalized(s, sid, eventID, fingerprint).0, sid, [])
  {
    Unmoved(s, ReduceFinalized(s, sid, eventID, fingerprint).0, sid);
  }

  /** From the live session on: opened, noted, and then whatever the kind of event does with it. */
  lemma NotedAdvanced(s: Reducer, sid: string, eventID: Option<string>, fingerprint: Fingerprint, s': Reducer)
    requires CanOpen(s, sid)
    requires var noted := NoteEvent(OpenSession(s, sid), sid, eventID, fingerprint).0; Advanced(noted, s', sid, [])
    ensures Advanced(s, s', sid, [])
  {
    hide Advanced, NoteEvent, OpenSession;
    OpenAdvanced(s, sid);
    OpenedIsLive(s, sid);
    var live := OpenSession(s, sid);
    NoteAdvanced(live, sid, eventID, fingerprint);
    var noted := NoteEvent(live, sid, eventID, fingerprint).0;
    AdvancedTrans(s, live, noted, sid, []);
    AdvancedTrans(s, noted, s', sid, []);
  }

  lemma AfterNoteAdvanced(s: Reducer, sid: string, eventID: Option<string>, fingerprint: Fingerprint)
    requires CanOpen(s, sid)
    ensures var noted := NoteEvent(OpenSession(s, sid), sid, eventID, fingerprint).0;
            && sid in noted.sessions
            && Advanced(s, noted, sid, [])
            && Advanced(s, Degrade(noted, sid, InvalidTransition, false).0, sid, [])
            && Advanced(s, Degrade(noted, sid, Overflow, true).0, sid, [])
  {
    hide Advanced, NoteEvent, OpenSession, Degrade;
    OpenedIsLive(s, sid);
    NoteAdvanced(OpenSession(s, sid), sid, eventID, fingerprint);
    var noted := NoteEvent(OpenSession(s, sid), sid, eventID, fingerprint).0;
    Unmoved(noted, noted, sid);
    DegradeAdvanced(noted, sid, InvalidTransition, false);
    DegradeAdvanced(noted, sid, Overflow, true);
    NotedAdvanced(s, sid, eventID, fingerprint, noted);
    NotedAdvanced(s, sid, eventID, fingerprint, Degrade(noted, sid, InvalidTransition, false).0);
    NotedAdvanced(s, sid, eventID, fingerprint, Degrade(noted, sid, Overflow, true).0);
  }

  lemma TouchedFirst(s: Reducer, s': Reducer, sid: string)
    requires Advanced(TouchFinalized(s, sid), s', sid, [])
    ensures Advanced(s, s', sid, [])
  {
    hide InsertionMap.Touch;
  }

  lemma ReduceToolAdvanced(s: Reducer, e: Event)
    requires e.ToolUpdated?
    ensures Advanced(s, ReduceTool(s, e).0, e.sessionID, [])
  {
    hide Advanced, Degrade, MarkOverflow, OpenSession, NoteEvent, ReduceCall, ReduceFinalized, ToolFingerprint, TouchFinalized, CanOpen;
    var sid := e.sessionID;
    var s1 := TouchFinalized(s, sid);
    Unmoved(s1, s1, sid);
    DegradeAdvanced(s1, sid, MissingField, true);
    MarkKeepsSessions(s1, sid);
    Unmoved(s1, MarkOverflow(s1, sid).0, sid);
    if e.call.Some? {
      var fingerprint := ToolFingerprint(sid, e.call.value);
      if sid in s1.finalized.values {
        ReduceFinalizedUnmoved(s1, sid, e.eventID, fingerprint);
      } else if CanOpen(s1, sid) {
        AfterNoteAdvanced(s1, sid, e.eventID, fingerprint);
        OpenedIsLive(s1, sid);
        var noted := NoteEvent(OpenSession(s1, sid), sid, e.eventID, fingerprint).0;
        CallAdvanced(noted, sid, e.eventID, e.call.value);
        NotedAdvanced(s1, sid, e.eventID, fingerprint, ReduceCall(noted, sid, e.eventID, e.call.value).0);
      }
    }
    TouchedFirst(s, ReduceTool(s, e).0, sid);
  }

  lemma ReduceSessionEventAdvanced(s: Reducer, e: Event)
    requires e.SessionEvent?
    ensures Advanced(s, ReduceSessionEvent(s, e).0, e.sessionID, [])
  {
    hide Advanced, Degrade, MarkOverflow, OpenSession, NoteEvent, ReduceFinalized, TouchFinalized, CanOpen;
    var sid := e.sessionID;
    var s1 := TouchFinalized(s, sid);
    MarkKeepsSessions(s1, sid);
    Unmoved(s1, MarkOverflow(s1, sid).0, sid);
    if sid in s1.finalized.values {
      ReduceFinalizedUnmoved(s1, sid, e.eventID, OfKind(sid, e.kind));
    } else if CanOpen(s1, sid) {
      OpenedIsLive(s1, sid);
      OpenAdvanced(s1, sid);
      AfterNoteAdvanced(s1, sid, e.eventID, OfKind(sid, e.kind));
    }
    TouchedFirst(s, ReduceSessionEvent(s, e).0, sid);
  }

  lemma DeleteAdvanced(s: Reducer, e: Event)
    requires e.SessionDeleted? && !AcceptsDelete(s, e)
    ensures Advanced(s, ReduceDeleted(s, e).0, e.sessionID, [])
  {
    hide Advanced, Degrade, MarkOverflow, OpenSession, ReduceFinalized, FinishSession, EventOverhead;
    var sid := e.sessionID;
    var s1 := TouchFinalized(s, sid);
    OpenTouched(s, sid);
    Unmoved(s1, s1, sid);
    DegradeAdvanced(s1, sid, MissingField, true);
    MarkKeepsSessions(s1, sid);
    Unmoved(s1, MarkOverflow(s1, sid).0, sid);
    if sid in s1.finalized.values {
      ReduceFinalizedUnmoved(s1, sid, e.eventID, OfKind(sid, Deletion));
    } else if CanOpen(s1, sid) {
      OpenedIsLive(s1, sid);
      OpenAdvanced(s1, sid);
      AfterNoteAdvanced(s1, sid, e.eventID, OfKind(sid, Deletion));
    }
    TouchedFirst(s, ReduceDeleted(s, e).0, sid);
  }

  lemma GroupAdvanced(s: Reducer, sid: string, records: seq<Record>)
    requires |records| > 0
    ensures var (s', out) := BoundedGroup(s, sid, records);
            Advanced(s, s', sid, if sid in s.sessions then out else [])
  {
    hide InsertionMap.Touch, InsertionMap.Set;
    var (s', out) := BoundedGroup(s, sid, records);
    if sid in s.sessions {
      var x := s.sessions[sid];
      assert x.stream + [] == x.stream;
      hide Advanced;
      if s' == s {
        Unmoved(s, s', sid);
      } else {
        assert s'.sessions == s.sessions[sid := s'.sessions[sid]];
        PutAdvanced(s, s', sid, s'.sessions[sid], out);
      }
    } else {
      Unmoved(s, s', sid);
    }
  }
}
