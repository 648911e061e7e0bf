/** What the OpenCode reducer answers to each event. */
module ReducerAnswers {
  // A table of answers, read off the event and the state before it; the reducer
  // emits exactly these records, for every state in order and every event.

  import opened Util
  import opened InsertionMaps
  import opened CanonicalJson
  import opened OpenCodeReducer
  import opened ReducerInvariant
  import opened ReducerSteps
  import opened ReducerQuota
  import opened ReducerProgress
  import opened ReducerRuns

  // ----- the table -----

  /** The session is live, or there is room for one more. */
  predicate Openable(s: Reducer, sid: string) {
    sid in s.sessions || (|s.sessions| < 256 && s.stateBytes + 256 + Utf8Bytes(sid) <= 2 * 1024 * 1024)
  }

  /** State bytes once the session is live. */
  function BytesLive(s: Reducer, sid: string): int {
    s.stateBytes + if sid in s.sessions then 0 else 256 + Utf8Bytes(sid)
  }

  datatype Verdict = Fresh | Again | Otherwise | NoRoom

  /** Whether the session saw this event id, and with this content. */
  function Judge(s: Reducer, sid: string, eventID: Option<string>, fingerprint: Fingerprint): Verdict {
    match eventID
    case None => Fresh
    case Some(id) =>
      if sid in s.sessions && id in s.sessions[sid].events then
        if s.sessions[sid].events[id].fingerprint == fingerprint then Again else Otherwise
      else if (sid in s.sessions && |s.sessions[sid].events| >= 4_096)
           || BytesLive(s, sid) + 160 + Utf8Bytes(id) > 2 * 1024 * 1024 then NoRoom
      else Fresh
  }

  function Verdicts(sid: string, verdict: Verdict, answer: seq<Record>): seq<Record> {
    match verdict
    case Fresh => answer
    case Again => []
    case Otherwise => [CoverageDegraded(sid, InvalidTransition)]
    case NoRoom => [CoverageDegraded(sid, Overflow)]
  }

  /** State bytes once the event id is noted too. */
  function BytesNoted(s: Reducer, sid: string, eventID: Option<string>): int {
    BytesLive(s, sid) + if eventID.Some? then 160 + Utf8Bytes(eventID.value) else 0
  }

  function Finish(sid: string, eventID: Option<string>, call: ToolCall): seq<Record> {
    match call.status
    case Completed => [ToolFinished(sid, eventID, call.callID, true)]
    case Failed => [ToolFinished(sid, eventID, call.callID, false)]
    case _ => []
  }

  function StatusRank(status: Status): nat {
    match status
    case Pending => 0
    case Running => 1
    case Completed => 2
    case Failed => 2
  }

  function CallAnswer(s: Reducer, sid: string, eventID: Option<string>, call: ToolCall): seq<Record> {
    if sid in s.sessions && call.callID in s.sessions[sid].calls then
      var prior := s.sessions[sid].calls[call.callID];
      if prior.identity != IdentityOf(call) then [CoverageDegraded(sid, InvalidTransition)]
      else if prior.status == call.status then []
      else if StatusRank(call.status) <= StatusRank(prior.status) then [CoverageDegraded(sid, InvalidTransition)]
      else Finish(sid, eventID, call)
    else if (sid in s.sessions && |s.sessions[sid].calls| >= 1_000)
         || BytesNoted(s, sid, eventID) + 192 + Utf8Bytes(call.callID) + Utf8Bytes(call.tool) > 2 * 1024 * 1024 then
      [CoverageDegraded(sid, Overflow)]
    else
      var input := match call.input case NotCanonical => None case Undigestible(text) => Some(text) case Digestible(text) => Some(text);
      [ToolStarted(sid, eventID, call.callID, call.tool, input)] + Finish(sid, eventID, call)
  }

  predicate Off(s: Reducer, sid: string) {
    sid in s.sessions && s.sessions[sid].disabled
  }

  /** What is said about a session that is live or can be opened. */
  function LiveAnswer(s: Reducer, e: Event): seq<Record> {
    match e
    case Irrelevant => []
    case ToolUpdated(sid, id, foreign, call) =>
      if Off(s, sid) then []
      else if foreign || call.None? then [CoverageDegraded(sid, MissingField)]
      else Verdicts(sid, Judge(s, sid, id, ToolFingerprint(sid, call.value)), CallAnswer(s, sid, id, call.value))
    case SessionEvent(sid, id, kind) =>
      if Off(s, sid) then [] else Verdicts(sid, Judge(s, sid, id, OfKind(sid, kind)), [Boundary(sid, id, kind)])
    case SessionDeleted(sid, id, foreign) =>
      if foreign then [CoverageDegraded(sid, MissingField)]
      else Verdicts(sid, Judge(s, sid, id, OfKind(sid, Deletion)), [SessionFinished(sid, id)])
  }

  /** What is said about a finalized session: only that an event does not fit, or that there are too many. */
  function FinalAnswer(f: Finalized, e: Event): seq<Record> {
    match e
    case Irrelevant => []
    case ToolUpdated(sid, id, foreign, call) =>
      if foreign || call.None? then [CoverageDegraded(sid, MissingField)]
      else FinalVerdict(f, sid, id, ToolFingerprint(sid, call.value))
    case SessionEvent(sid, id, kind) => FinalVerdict(f, sid, id, OfKind(sid, kind))
    case SessionDeleted(sid, id, foreign) =>
      if foreign then [CoverageDegraded(sid, MissingField)] else FinalVerdict(f, sid, id, OfKind(sid, Deletion))
  }

  function FinalVerdict(f: Finalized, sid: string, id: Option<string>, fingerprint: Fingerprint): seq<Record> {
    if id.None? then []
    else if id.value in f.events then
      if f.events[id.value] == fingerprint then [] else [CoverageDegraded(sid, InvalidTransition)]
    else if |f.events| >= 8 then [CoverageDegraded(sid, Overflow)]
    else []
  }

  /** How many records the session has emitted when the event arrives. */
  function Spent(s: Reducer, sid: string): nat {
    if sid in s.sessions then s.sessions[sid].recordCount else if sid in s.overflow.values then 1 else 0
  }

  /** Places 996 and 997 of a lifetime are kept for a degradation and for the end of the session. */
  function Quota(s: Reducer, sid: string, answer: seq<Record>): seq<Record> {
    if |answer| == 0 || answer[0].SessionFinished? then answer
    else if sid in s.sessions && s.sessions[sid].overflowReported then []
    else if Spent(s, sid) + |answer| <= (if answer[0].CoverageDegraded? then 996 else 995) then answer
    else if Spent(s, sid) < 996 then [CoverageDegraded(sid, Overflow)]
    else []
  }

  function Said(s: Reducer, e: Event): seq<Record> {
    var sid := SessionOf(e);
    if e.Irrelevant? then []
    else if sid in s.finalized.values then
      if s.finalized.values[sid].degradationReported then [] else FinalAnswer(s.finalized.values[sid], e)
    else if Openable(s, sid) then Quota(s, sid, LiveAnswer(s, e))
    else if sid in s.overflow.values then []
    else [CoverageDegraded(sid, Overflow)]
  }

  // ----- the reducer proposes this -----

  /** What the event proposes before any quota. */
  function Proposal(s: Reducer, e: Event): seq<Record> {
    var sid := SessionOf(e);
    if e.Irrelevant? then []
    else if sid in s.finalized.values then FinalAnswer(s.finalized.values[sid], e)
    else if Openable(s, sid) then LiveAnswer(s, e)
    else if sid in s.overflow.values then []
    else [CoverageDegraded(sid, Overflow)]
  }

  lemma NotFinalTouch(s: Reducer, sid: string)
    ensures sid !in s.finalized.values ==> TouchFinalized(s, sid) == s
    ensures Openable(s, sid) <==> CanOpen(s, sid)
  {
  }

  /** The view of a session once it is live: nothing of it has moved, and a new one is empty. */
  lemma OpenView(s: Reducer, sid: string)
    requires ReducerOk(s) && CanOpen(s, sid)
    ensures var live := OpenSession(s, sid);
            && sid in live.sessions && live.stateBytes == BytesLive(s, sid)
            && (sid in s.sessions ==> live.sessions[sid] == s.sessions[sid])
            && (sid !in s.sessions ==> live.sessions[sid].calls == map[] && live.sessions[sid].events == map[]
                                       && !live.sessions[sid].disabled && !live.sessions[sid].overflowReported)
            && live.sessions[sid].recordCount == Spent(s, sid) && !live.sessions[sid].deleted
  {
    hide Utf8Bytes, CallsOk, StreamOk;
    if sid in s.sessions {
      assert SessionOk(sid, s.sessions[sid]);
    }
  }

  predicate SameCounts(x: Session, y: Session) {
    x.recordCount == y.recordCount && x.overflowReported == y.overflowReported
  }

  lemma NoteView(s: Reducer, sid: string, eventID: Option<string>, fingerprint: Fingerprint)
    requires ReducerOk(s) && CanOpen(s, sid)
    ensures var live := OpenSession(s, sid);
            sid in live.sessions &&
            var (noted, replay) := NoteEvent(live, sid, eventID, fingerprint);
            && sid in noted.sessions && SameCounts(noted.sessions[sid], live.sessions[sid])
            && noted.sessions[sid].calls == live.sessions[sid].calls
            && (replay.New? <==> Judge(s, sid, eventID, fingerprint).Fresh?)
            && (replay.Replayed? <==> Judge(s, sid, eventID, fingerprint).Again?)
            && (replay.Conflict? <==> Judge(s, sid, eventID, fingerprint).Otherwise?)
            && (replay.New? ==> noted.stateBytes == BytesNoted(s, sid, eventID))
  {
    hide ReducerOk, Utf8Bytes, OpenSession;
    OpenView(s, sid);
  }

  lemma DegradeView(s: Reducer, sid: string, reason: Reason, disable: bool)
    requires sid in s.sessions
    ensures var (s', records) := Degrade(s, sid, reason, disable);
            records == [CoverageDegraded(sid, reason)] && sid in s'.sessions && SameCounts(s'.sessions[sid], s.sessions[sid])
  {
  }

  lemma CallView(s: Reducer, noted: Reducer, sid: string, eventID: Option<string>, call: ToolCall)
    requires sid in noted.sessions && noted.stateBytes == BytesNoted(s, sid, eventID)
    requires noted.sessions[sid].calls == if sid in s.sessions then s.sessions[sid].calls else map[]
    ensures var (s', records) := ReduceCall(noted, sid, eventID, call);
            records == CallAnswer(s, sid, eventID, call) && sid in s'.sessions && SameCounts(s'.sessions[sid], noted.sessions[sid])
  {
    hide Utf8Bytes, Degrade, IdentityOf;
    DegradeView(noted, sid, Overflow, true);
    DegradeView(noted, sid, InvalidTransition, false);
  }

  // ----- event by event -----

  /** What is proposed of a session not finalized; if it is live then, its counts have not moved. */
  ghost predicate Proposes(s: Reducer, e: Event, value: (Reducer, seq<Record>)) {
    var sid := SessionOf(e);
    && value.1 == Proposal(s, e)
    && (Openable(s, sid) ==>
          && sid in value.0.sessions && value.0.sessions[sid].recordCount == Spent(s, sid)
          && (value.0.sessions[sid].overflowReported <==> sid in s.sessions && s.sessions[sid].overflowReported))
    && (!Openable(s, sid) ==> sid !in value.0.sessions && sid in value.0.overflow.values && sid !in value.0.finalized.values)
  }

  lemma UnopenableProposes(s: Reducer, sid: string)
    requires ReducerOk(s) && sid !in s.finalized.values && !CanOpen(s, sid)
    ensures var (s', records) := MarkOverflow(s, sid);
            && records == (if sid in s.overflow.values then [] else [CoverageDegraded(sid, Overflow)])
            && sid !in s'.sessions && sid in s'.overflow.values && s'.finalized == s.finalized
  {
    hide SessionOk, BytesOk, Utf8Bytes;
    TouchValid(s.overflow, sid);
    RememberValid(s.overflow, sid, true, MAX_OVERFLOW_SESSION_MARKERS);
    hide InsertionMap.Touch, InsertionMap.Remember, InsertionMap.Valid;
  }

  lemma DegradeProposes(s: Reducer, sid: string, reason: Reason, disable: bool)
    requires ReducerOk(s) && CanOpen(s, sid)
    ensures var (s', records) := Degrade(s, sid, reason, disable);
            && records == [CoverageDegraded(sid, reason)] && sid in s'.sessions
            && s'.sessions[sid].recordCount == Spent(s, sid)
            && (s'.sessions[sid].overflowReported <==> sid in s.sessions && s.sessions[sid].overflowReported)
  {
    hide ReducerOk, OpenSession;
    OpenView(s, sid);
  }

  lemma NotDeleted(s: Reducer, sid: string)
    requires ReducerOk(s) && sid in s.sessions
    ensures !s.sessions[sid].deleted && sid !in s.finalized.values
  {
    hide CallsOk, StreamOk, BytesOk, InsertionMap.Valid;
    assert SessionOk(sid, s.sessions[sid]);
  }

  /** The events after the look-ups: opened, noted, judged. */
  lemma JudgedProposes(s: Reducer, sid: string, id: Option<string>, fingerprint: Fingerprint)
    requires ReducerOk(s) && CanOpen(s, sid)
    ensures var live := OpenSession(s, sid);
            sid in live.sessions &&
            var noted := NoteEvent(live, sid, id, fingerprint).0;
            sid in noted.sessions
            && noted.sessions[sid].recordCount == Spent(s, sid)
            && (noted.sessions[sid].overflowReported <==> sid in s.sessions && s.sessions[sid].overflowReported)
            && noted.sessions[sid].calls == (if sid in s.sessions then s.sessions[sid].calls else map[])
  {
    hide ReducerOk, OpenSession, NoteEvent, Judge;
    OpenView(s, sid);
    NoteView(s, sid, id, fingerprint);
  }

  lemma ToolProposes(s: Reducer, e: Event)
    requires ReducerOk(s) && e.ToolUpdated? && e.sessionID !in s.finalized.values
    ensures Proposes(s, e, ReduceTool(s, e))
  {
    hide ReducerOk, OpenSession, NoteEvent, Judge, ReduceCall, CallAnswer, MarkOverflow, Degrade, CanOpen, Openable, ToolFingerprint;
    var sid := e.sessionID;
    NotFinalTouch(s, sid);
    if sid in s.sessions {
      NotDeleted(s, sid);
      OpenNow(s, sid);
    }
    if CanOpen(s, sid) {
      DegradeProposes(s, sid, MissingField, true);
      if e.call.Some? {
        ToolJudged(s, sid, e.eventID, e.call.value);
      }
    } else {
      UnopenableProposes(s, sid);
      DegradeUnopenable(s, sid, MissingField, true);
    }
  }

  lemma OpenNow(s: Reducer, sid: string)
    ensures sid in s.sessions ==> CanOpen(s, sid)
    ensures sid in s.sessions ==> Spent(s, sid) == s.sessions[sid].recordCount
  {
  }

  lemma DegradeUnopenable(s: Reducer, sid: string, reason: Reason, disable: bool)
    requires !CanOpen(s, sid)
    ensures Degrade(s, sid, reason, disable) == MarkOverflow(s, sid)
  {
  }

  /** The tool event of a session that can be opened, from its judgement on. */
  function AfterJudgement(s: Reducer, sid: string, id: Option<string>, call: ToolCall): (Reducer, seq<Record>)
    requires CanOpen(s, sid) && sid in OpenSession(s, sid).sessions
  {
    var (noted, replay) := NoteEvent(OpenSession(s, sid), sid, id, ToolFingerprint(sid, call));
    match replay
    case Replayed => (noted, [])
    case Conflict => Degrade(noted, sid, InvalidTransition, false)
    case Full => Degrade(noted, sid, Overflow, true)
    case New => if sid in noted.sessions then ReduceCall(noted, sid, id, call) else (noted, [])
  }

  lemma ToolJudged(s: Reducer, sid: string, id: Option<string>, call: ToolCall)
    requires ReducerOk(s) && CanOpen(s, sid)
    ensures sid in OpenSession(s, sid).sessions
    ensures var (s', records) := AfterJudgement(s, sid, id, call);
            && records == Verdicts(sid, Judge(s, sid, id, ToolFingerprint(sid, call)), CallAnswer(s, sid, id, call))
            && sid in s'.sessions && s'.sessions[sid].recordCount == Spent(s, sid)
            && (s'.sessions[sid].overflowReported <==> sid in s.sessions && s.sessions[sid].overflowReported)
  {
    hide ReducerOk, OpenSession, NoteEvent, Judge, ReduceCall, CallAnswer, Degrade, CanOpen, ToolFingerprint;
    OpenView(s, sid);
    var live := OpenSession(s, sid);
    var fingerprint := ToolFingerprint(sid, call);
    NoteView(s, sid, id, fingerprint);
    JudgedProposes(s, sid, id, fingerprint);
    var (noted, replay) := NoteEvent(live, sid, id, fingerprint);
    DegradeView(noted, sid, InvalidTransition, false);
    DegradeView(noted, sid, Overflow, true);
    if replay.New? {
      CallView(s, noted, sid, id, call);
    }
  }

  lemma SessionEventProposes(s: Reducer, e: Event)
    requires ReducerOk(s) && e.SessionEvent? && e.sessionID !in s.finalized.values
    ensures Proposes(s, e, ReduceSessionEvent(s, e))
  {
    hide ReducerOk, OpenSession, NoteEvent, Judge, MarkOverflow, Degrade, CanOpen, Openable;
    var sid := e.sessionID;
    NotFinalTouch(s, sid);
    OpenNow(s, sid);
    if sid in s.sessions {
      NotDeleted(s, sid);
    }
    if CanOpen(s, sid) {
      OpenView(s, sid);
      NoteView(s, sid, e.eventID, OfKind(sid, e.kind));
      JudgedProposes(s, sid, e.eventID, OfKind(sid, e.kind));
      var noted := NoteEvent(OpenSession(s, sid), sid, e.eventID, OfKind(sid, e.kind)).0;
      DegradeView(noted, sid, InvalidTransition, false);
      DegradeView(noted, sid, Overflow, true);
    } else {
      UnopenableProposes(s, sid);
    }
  }

  lemma DeletedProposes(s: Reducer, e: Event)
    requires ReducerOk(s) && e.SessionDeleted? && e.sessionID !in s.finalized.values && !AcceptsDelete(s, e)
    ensures Proposes(s, e, ReduceDeleted(s, e))
  {
    hide ReducerOk, OpenSession, NoteEvent, Judge, MarkOverflow, Degrade, CanOpen, Openable, FinishSession, AcceptsDelete;
    var sid := e.sessionID;
    NotFinalTouch(s, sid);
    OpenNow(s, sid);
    if sid in s.sessions {
      NotDeleted(s, sid);
    }
    if CanOpen(s, sid) {
      OpenView(s, sid);
      DegradeProposes(s, sid, MissingField, true);
      NoteView(s, sid, e.eventID, OfKind(sid, Deletion));
      JudgedProposes(s, sid, e.eventID, OfKind(sid, Deletion));
      AcceptsIff(s, e);
      var noted := NoteEvent(OpenSession(s, sid), sid, e.eventID, OfKind(sid, Deletion)).0;
      DegradeView(noted, sid, InvalidTransition, false);
      DegradeView(noted, sid, Overflow, true);
    } else {
      UnopenableProposes(s, sid);
      DegradeUnopenable(s, sid, MissingField, true);
    }
  }

  /** A deletion is accepted exactly when it is unambiguous, the session can be opened, and its event id is fresh. */
  lemma AcceptsIff(s: Reducer, e: Event)
    requires ReducerOk(s) && e.SessionDeleted?
    ensures AcceptsDelete(s, e) <==>
      && !e.foreign && e.sessionID !in s.finalized.values && Openable(s, e.sessionID)
      && Judge(s, e.sessionID, e.eventID, OfKind(e.sessionID, Deletion)).Fresh?
  {
    hide ReducerOk, OpenSession, Utf8Bytes;
    if CanOpen(s, e.sessionID) {
      OpenView(s, e.sessionID);
    }
  }

  // ----- and the quota -----

  /** Answers are one degradation, or at most two records none of which is one. */
  predicate Shaped(answer: seq<Record>) {
    && |answer| <= 2
    && (|answer| > 0 && answer[0].CoverageDegraded? ==> |answer| == 1)
    && (|answer| == 2 ==> !answer[1].CoverageDegraded? && !answer[1].SessionFinished? && !answer[0].SessionFinished?)
  }

  lemma AnswersShaped(s: Reducer, e: Event)
    ensures Shaped(LiveAnswer(s, e))
    ensures |LiveAnswer(s, e)| > 0 && LiveAnswer(s, e)[0].SessionFinished? ==>
      e.SessionDeleted? && !e.foreign && Judge(s, e.sessionID, e.eventID, OfKind(e.sessionID, Deletion)).Fresh?
    ensures forall f :: Shaped(FinalAnswer(f, e)) && (|FinalAnswer(f, e)| > 0 ==> FinalAnswer(f, e)[0].CoverageDegraded?)
  {
    hide Judge, IdentityOf, ToolFingerprint, Utf8Bytes;
  }

  lemma ShapeKinds(answer: seq<Record>)
    requires Shaped(answer) && |answer| > 0
    ensures AllDegraded(answer) <==> answer[0].CoverageDegraded?
    ensures AllFinished(answer) <==> answer[0].SessionFinished?
  {
    assert answer[0] in answer;
    if |answer| == 2 {
      assert answer[1] in answer;
    }
  }

  lemma QuotaSays(s: Reducer, reduced: Reducer, sid: string, answer: seq<Record>)
    requires Shaped(answer) && |answer| > 0 && !answer[0].SessionFinished?
    requires sid in reduced.sessions && reduced.sessions[sid].recordCount == Spent(s, sid)
    requires reduced.sessions[sid].overflowReported <==> sid in s.sessions && s.sessions[sid].overflowReported
    ensures BoundedGroup(reduced, sid, answer).1 == Quota(s, sid, answer)
  {
    hide AllDegraded, AllFinished;
    ShapeKinds(answer);
  }

  lemma GoneSays(reduced: Reducer, sid: string, answer: seq<Record>)
    requires |answer| == 1 && answer[0].CoverageDegraded? && sid !in reduced.sessions
    ensures sid in reduced.finalized.values ==>
      BoundedGroup(reduced, sid, answer).1 == if reduced.finalized.values[sid].degradationReported then [] else answer
    ensures sid !in reduced.finalized.values && sid in reduced.overflow.values ==> BoundedGroup(reduced, sid, answer).1 == answer
  {
    hide InsertionMap.Delete, InsertionMap.Set;
    ShapeKinds(answer);
    assert TouchFinalized(reduced, sid).finalized.values == reduced.finalized.values by {
      TouchValues(reduced.finalized, sid);
    }
    assert [answer[0]] == answer;
  }

  lemma TouchValues<V>(m: InsertionMap<string, V>, k: string)
    ensures m.Touch(k).values == m.values
  {
    if k in m.values {
      assert (m.values - {k})[k := m.values[k]] == m.values;
    }
  }

  lemma SaysBounded(s: Reducer, e: Event, sid: string)
    requires ReduceValue(s, e).1 == [] || forall r <- ReduceValue(s, e).1 :: r.sessionID == sid
    ensures var (reduced, records) := ReduceValue(s, e);
            Reduce(s, e).1 == if |records| == 0 then [] else BoundedGroup(reduced, sid, records).1
  {
    hide ReduceValue, BoundedGroup, Evict;
    var (reduced, records) := ReduceValue(s, e);
    NothingToBound(reduced);
    if |records| > 0 {
      BoundedIsGroup(reduced, sid, records);
    }
  }

  lemma ValueProposes(s: Reducer, e: Event)
    requires ReducerOk(s) && !e.Irrelevant? && e.sessionID !in s.finalized.values && !AcceptsDelete(s, e)
    ensures Proposes(s, e, ReduceValue(s, e))
  {
    hide ReducerOk, ReduceTool, ReduceDeleted, ReduceSessionEvent, AcceptsDelete, Proposes;
    match e
    case ToolUpdated(_, _, _, _) => ToolProposes(s, e);
    case SessionDeleted(_, _, _) => DeletedProposes(s, e);
    case SessionEvent(_, _, _) => SessionEventProposes(s, e);
  }

  /** A finalized session: what is proposed, with its report still as it was. */
  lemma FinalValue(s: Reducer, e: Event)
    requires ReducerOk(s) && !e.Irrelevant? && e.sessionID in s.finalized.values
    ensures var (reduced, records) := ReduceValue(s, e);
            && records == FinalAnswer(s.finalized.values[e.sessionID], e)
            && e.sessionID !in reduced.sessions && e.sessionID in reduced.finalized.values
            && reduced.finalized.values[e.sessionID].degradationReported == s.finalized.values[e.sessionID].degradationReported
  {
    hide ReducerOk, ReduceValue, FinalAnswer, AllDegraded, StreamOk, TouchFinalized;
    FinalizedProposes(s, e);
    FinalRecords(s, e);
    NotLive(s, e.sessionID);
  }

  lemma FinalRecords(s: Reducer, e: Event)
    requires ReducerOk(s) && !e.Irrelevant? && e.sessionID in s.finalized.values
    ensures ReduceValue(s, e).1 == FinalAnswer(s.finalized.values[e.sessionID], e)
  {
    hide ReducerOk, ToolFingerprint, ReduceCall, Degrade, TouchFinalized, MarkOverflow, NoteEvent, OpenSession, CanOpen, FinishSession;
    TouchOk(s, e.sessionID);
    var touched := TouchFinalized(s, e.sessionID);
    assert touched.finalized.values == s.finalized.values;
  }

  lemma OwnRecords(s: Reducer, e: Event)
    ensures forall r <- LiveAnswer(s, e) :: r.sessionID == SessionOf(e)
    ensures forall f :: forall r <- FinalAnswer(f, e) :: r.sessionID == SessionOf(e)
  {
    hide Judge, IdentityOf, ToolFingerprint, Utf8Bytes;
  }

  /** For every state in order and every event, the reducer emits exactly what the table says. */
  lemma Says(s: Reducer, e: Event)
    requires ReducerOk(s)
    ensures Reduce(s, e).1 == Said(s, e)
  {
    hide ReducerOk, ReduceValue, BoundedGroup, Reduce, LiveAnswer, FinalAnswer, AcceptsDelete, Openable, Judge, Shaped, Quota;
    var sid := SessionOf(e);
    OwnRecords(s, e);
    AnswersShaped(s, e);
    if e.Irrelevant? {
      SaysNothing(s);
    } else if AcceptsDelete(s, e) {
      SaysFinished(s, e);
    } else if sid in s.finalized.values {
      FinalValue(s, e);
      SaysBounded(s, e, sid);
      SaysFinal(s, e);
    } else {
      ValueProposes(s, e);
      SaysLive(s, e);
    }
  }

  lemma SaysNothing(s: Reducer)
    ensures Reduce(s, Irrelevant).1 == []
  {
    NothingToBound(s);
  }

  lemma SaysFinished(s: Reducer, e: Event)
    requires ReducerOk(s) && AcceptsDelete(s, e)
    ensures Reduce(s, e).1 == Said(s, e)
  {
    hide ReducerOk, Reduce, Openable, Judge, AcceptsDelete;
    DeleteIsDelete(s, e);
    AcceptedDelete(s, e);
    AcceptsIff(s, e);
  }

  lemma SaysFinal(s: Reducer, e: Event)
    requires ReducerOk(s) && !e.Irrelevant? && e.sessionID in s.finalized.values
    ensures Reduce(s, e).1 == Said(s, e)
  {
    hide ReducerOk, ReduceValue, BoundedGroup, Reduce, FinalAnswer, Openable;
    OwnRecords(s, e);
    AnswersShaped(s, e);
    FinalValue(s, e);
    SaysBounded(s, e, e.sessionID);
    var (reduced, records) := ReduceValue(s, e);
    if |records| > 0 {
      GoneSays(reduced, e.sessionID, records);
    }
  }

  lemma SaysLive(s: Reducer, e: Event)
    requires ReducerOk(s) && !e.Irrelevant? && e.sessionID !in s.finalized.values && !AcceptsDelete(s, e)
    requires Proposes(s, e, ReduceValue(s, e))
    ensures Reduce(s, e).1 == Said(s, e)
  {
    hide ReducerOk, ReduceValue, BoundedGroup, Reduce, LiveAnswer, Openable, Judge, AcceptsDelete;
    var sid := e.sessionID;
    OwnRecords(s, e);
    AnswersShaped(s, e);
    SaysBounded(s, e, sid);
    var (reduced, records) := ReduceValue(s, e);
    if e.SessionDeleted? {
      AcceptsIff(s, e);
    }
    if |records| > 0 {
      if Openable(s, sid) {
        QuotaSays(s, reduced, sid, records);
      } else {
        GoneSays(reduced, sid, records);
      }
    }
  }

  // ----- what a live session keeps of an event -----

  function Statuses(x: Session): map<string, Status> {
    map c | c in x.calls :: x.calls[c].status
  }

  function StatusesBefore(s: Reducer, sid: string): map<string, Status> {
    if sid in s.sessions then Statuses(s.sessions[sid]) else map[]
  }

  function IdsBefore(s: Reducer, sid: string): set<string> {
    if sid in s.sessions then s.sessions[sid].events.Keys else {}
  }

  /** The event is looked at: its id is fresh, and it is complete. */
  predicate Heeded(s: Reducer, e: Event) {
    match e
    case Irrelevant => false
    case ToolUpdated(sid, id, foreign, call) =>
      !Off(s, sid) && !foreign && call.Some? && Judge(s, sid, id, ToolFingerprint(sid, call.value)).Fresh?
    case SessionEvent(sid, id, kind) => !Off(s, sid) && Judge(s, sid, id, OfKind(sid, kind)).Fresh?
    case SessionDeleted(sid, id, foreign) => false
  }

  /** A new call there is room for, or a known one that stays or moves up. */
  predicate CallHeeded(s: Reducer, sid: string, id: Option<string>, call: ToolCall) {
    if sid in s.sessions && call.callID in s.sessions[sid].calls then
      var prior := s.sessions[sid].calls[call.callID];
      prior.identity == IdentityOf(call) && (prior.status == call.status || StatusRank(call.status) > StatusRank(prior.status))
    else
      (sid in s.sessions ==> |s.sessions[sid].calls| < 1_000)
      && BytesNoted(s, sid, id) + 192 + Utf8Bytes(call.callID) + Utf8Bytes(call.tool) <= 2 * 1024 * 1024
  }

  function StatusesAfter(s: Reducer, e: Event): map<string, Status> {
    var sid := SessionOf(e);
    if e.ToolUpdated? && Heeded(s, e) && CallHeeded(s, sid, e.eventID, e.call.value)
    then StatusesBefore(s, sid)[e.call.value.callID := e.call.value.status] else StatusesBefore(s, sid)
  }

  function IdsAfter(s: Reducer, e: Event): set<string> {
    if Heeded(s, e) && e.eventID.Some? then IdsBefore(s, e.sessionID) + {e.eventID.value} else IdsBefore(s, SessionOf(e))
  }

  /** The event disables its session: incomplete, or without room for its id, its call or its records. */
  predicate Switches(s: Reducer, e: Event) {
    var sid := SessionOf(e);
    var incomplete := match e case ToolUpdated(_, _, foreign, call) => foreign || call.None?
                              case SessionDeleted(_, _, foreign) => foreign case _ => false;
    var answer := LiveAnswer(s, e);
    || incomplete
    || (answer == [CoverageDegraded(sid, Overflow)])
    || (|answer| > 0 && !(sid in s.sessions && s.sessions[sid].overflowReported)
        && Spent(s, sid) + |answer| > if answer[0].CoverageDegraded? then 996 else 995)
  }

  /** The session as it is proposed: calls, ids and whether it is off. */
  ghost predicate Holds(x: Session, statuses: map<string, Status>, ids: set<string>, off: bool) {
    Statuses(x) == statuses && x.events.Keys == ids && x.disabled == off
  }

  lemma OpenHolds(s: Reducer, sid: string)
    requires ReducerOk(s) && CanOpen(s, sid)
    ensures sid in OpenSession(s, sid).sessions
    ensures Holds(OpenSession(s, sid).sessions[sid], StatusesBefore(s, sid), IdsBefore(s, sid), Off(s, sid))
  {
    hide ReducerOk, Utf8Bytes;
  }

  lemma SeenHolds(x: Session, id: string, seen: Seen, statuses: map<string, Status>, ids: set<string>, off: bool)
    requires Holds(x, statuses, ids, off)
    ensures Holds(x.(events := x.events[id := seen]), statuses, ids + {id}, off)
  {
    hide Statuses;
    SameCallsHold(x, x.(events := x.events[id := seen]));
  }

  lemma SameCallsHold(x: Session, y: Session)
    requires x.calls == y.calls
    ensures Statuses(x) == Statuses(y)
  {
  }

  lemma NoteHolds(live: Reducer, sid: string, id: Option<string>, fingerprint: Fingerprint, statuses: map<string, Status>, ids: set<string>, off: bool)
    requires sid in live.sessions && Holds(live.sessions[sid], statuses, ids, off)
    ensures var (noted, replay) := NoteEvent(live, sid, id, fingerprint);
            sid in noted.sessions
            && Holds(noted.sessions[sid], statuses, if replay.New? && id.Some? then ids + {id.value} else ids, off)
  {
    hide Utf8Bytes, Holds;
    if id.Some? {
      SeenHolds(live.sessions[sid], id.value, Seen(fingerprint, EventOverhead(id.value)), statuses, ids, off);
    }
  }

  lemma DegradeHolds(s: Reducer, sid: string, reason: Reason, disable: bool, statuses: map<string, Status>, ids: set<string>, off: bool)
    requires sid in s.sessions && Holds(s.sessions[sid], statuses, ids, off)
    ensures var s' := Degrade(s, sid, reason, disable).0;
            sid in s'.sessions && Holds(s'.sessions[sid], statuses, ids, off || disable)
  {
  }

  lemma StatusPut(x: Session, c: string, call: Call)
    ensures Statuses(x.(calls := x.calls[c := call])) == Statuses(x)[c := call.status]
  {
  }

  lemma CallHolds(s: Reducer, noted: Reducer, sid: string, id: Option<string>, call: ToolCall, ids: set<string>, off: bool)
    requires sid in noted.sessions && noted.stateBytes == BytesNoted(s, sid, id)
    requires noted.sessions[sid].calls == if sid in s.sessions then s.sessions[sid].calls else map[]
    requires Holds(noted.sessions[sid], StatusesBefore(s, sid), ids, off)
    ensures var s' := ReduceCall(noted, sid, id, call).0;
            var before := StatusesBefore(s, sid);
            sid in s'.sessions &&
            Holds(s'.sessions[sid], if CallHeeded(s, sid, id, call) then before[call.callID := call.status] else before, ids,
                  off || CallAnswer(s, sid, id, call) == [CoverageDegraded(sid, Overflow)])
  {
    hide Utf8Bytes, Degrade, IdentityOf, Holds, Statuses;
    var before := StatusesBefore(s, sid);
    DegradeHolds(noted, sid, Overflow, true, before, ids, off);
    DegradeHolds(noted, sid, InvalidTransition, false, before, ids, off);
    var x := noted.sessions[sid];
    if call.callID in x.calls {
      PutHolds(x, call.callID, x.calls[call.callID].(status := call.status), before, ids, off);
    } else {
      var answer := CallAnswer(s, sid, id, call);
      assert CallHeeded(s, sid, id, call) ==> answer[0].ToolStarted?;
      PutHolds(x, call.callID, Call(call.status, IdentityOf(call), CallOverhead(call)), before, ids, off);
    }
  }

  lemma PutHolds(x: Session, c: string, call: Call, statuses: map<string, Status>, ids: set<string>, off: bool)
    requires Holds(x, statuses, ids, off)
    ensures Holds(x.(calls := x.calls[c := call]), statuses[c := call.status], ids, off)
  {
    StatusPut(x, c, call);
  }

  lemma GroupHolds(s: Reducer, sid: string, records: seq<Record>, statuses: map<string, Status>, ids: set<string>, off: bool)
    requires |records| > 0 && sid in s.sessions && Holds(s.sessions[sid], statuses, ids, off)
    requires Shaped(records) && !records[0].SessionFinished?
    ensures var s' := BoundedGroup(s, sid, records).0;
            var x := s.sessions[sid];
            var over := !x.overflowReported && x.recordCount + |records| > if records[0].CoverageDegraded? then 996 else 995;
            sid in s'.sessions && Holds(s'.sessions[sid], statuses, ids, off || over)
  {
    hide AllDegraded, AllFinished, Holds;
    ShapeKinds(records);
    var x := s.sessions[sid];
    BooksHold(x, x.(recordCount := x.recordCount + |records|, stream := x.stream + records), statuses, ids, off);
    var disabled := x.(disabled := true, overflowReported := true);
    OffHolds(x, disabled, statuses, ids, off);
    BooksHold(disabled, disabled.(recordCount := x.recordCount + 1, stream := x.stream + [CoverageDegraded(sid, Overflow)]), statuses, ids, true);
  }

  lemma BooksHold(x: Session, y: Session, statuses: map<string, Status>, ids: set<string>, off: bool)
    requires Holds(x, statuses, ids, off) && y == x.(recordCount := y.recordCount, stream := y.stream)
    ensures Holds(y, statuses, ids, off)
  {
    hide Statuses;
    SameCallsHold(x, y);
  }

  lemma OffHolds(x: Session, y: Session, statuses: map<string, Status>, ids: set<string>, off: bool)
    requires Holds(x, statuses, ids, off) && y == x.(disabled := true, overflowReported := true)
    ensures Holds(y, statuses, ids, true)
  {
    hide Statuses;
    SameCallsHold(x, y);
  }

  // ----- event by event again, now for what is kept -----

  /** What the value of an event holds, before the quota. */
  ghost predicate ValueHolds(s: Reducer, e: Event, reduced: Reducer) {
    var sid := SessionOf(e);
    sid in reduced.sessions && Holds(reduced.sessions[sid], StatusesAfter(s, e), IdsAfter(s, e), Off(s, sid) || SwitchedByValue(s, e))
  }

  /** Disabled before any quota is asked. */
  predicate SwitchedByValue(s: Reducer, e: Event) {
    match e
    case Irrelevant => false
    case ToolUpdated(sid, _, foreign, call) =>
      !Off(s, sid) && (foreign || call.None? || LiveAnswer(s, e) == [CoverageDegraded(sid, Overflow)])
    case SessionDeleted(sid, _, foreign) => foreign || LiveAnswer(s, e) == [CoverageDegraded(sid, Overflow)]
    case SessionEvent(sid, _, _) => !Off(s, sid) && LiveAnswer(s, e) == [CoverageDegraded(sid, Overflow)]
  }

  lemma ToolHolds(s: Reducer, e: Event)
    requires ReducerOk(s) && e.ToolUpdated? && e.sessionID !in s.finalized.values && CanOpen(s, e.sessionID)
    ensures ValueHolds(s, e, ReduceTool(s, e).0)
  {
    hide ReducerOk, OpenSession, NoteEvent, Judge, ReduceCall, CallAnswer, MarkOverflow, Degrade, CanOpen, Openable, ToolFingerprint, Holds, CallHeeded;
    var sid := e.sessionID;
    NotFinalTouch(s, sid);
    if sid in s.sessions {
      NotDeleted(s, sid);
    }
    OpenView(s, sid);
    OpenHolds(s, sid);
    DegradeOpens(s, sid, MissingField, true);
    if e.call.Some? && !e.foreign && !Off(s, sid) {
      JudgedHolds(s, sid, e.eventID, e.call.value);
    }
  }

  lemma DegradeOpens(s: Reducer, sid: string, reason: Reason, disable: bool)
    requires ReducerOk(s) && CanOpen(s, sid)
    ensures var s' := Degrade(s, sid, reason, disable).0;
            sid in s'.sessions && Holds(s'.sessions[sid], StatusesBefore(s, sid), IdsBefore(s, sid), Off(s, sid) || disable)
  {
    hide ReducerOk, OpenSession, Holds;
    OpenHolds(s, sid);
    var x := OpenSession(s, sid).sessions[sid];
    DisabledHolds(x, StatusesBefore(s, sid), IdsBefore(s, sid), Off(s, sid));
  }

  lemma DisabledHolds(x: Session, statuses: map<string, Status>, ids: set<string>, off: bool)
    requires Holds(x, statuses, ids, off)
    ensures Holds(x.(disabled := true), statuses, ids, true)
  {
    hide Statuses;
    SameCallsHold(x, x.(disabled := true));
  }

  lemma JudgedHolds(s: Reducer, sid: string, id: Option<string>, call: ToolCall)
    requires ReducerOk(s) && CanOpen(s, sid) && !Off(s, sid)
    ensures sid in OpenSession(s, sid).sessions
    ensures var e := ToolUpdated(sid, id, false, Some(call));
            ValueHolds(s, e, AfterJudgement(s, sid, id, call).0)
  {
    hide ReducerOk, OpenSession, NoteEvent, Judge, ReduceCall, CallAnswer, Degrade, CanOpen, ToolFingerprint, Holds, CallHeeded;
    OpenView(s, sid);
    OpenHolds(s, sid);
    var live := OpenSession(s, sid);
    var fingerprint := ToolFingerprint(sid, call);
    NoteView(s, sid, id, fingerprint);
    var before, ids := StatusesBefore(s, sid), IdsBefore(s, sid);
    NoteHolds(live, sid, id, fingerprint, before, ids, false);
    var (noted, replay) := NoteEvent(live, sid, id, fingerprint);
    if replay.New? {
      CallHolds(s, noted, sid, id, call, if id.Some? then ids + {id.value} else ids, false);
    } else {
      DegradeHolds(noted, sid, InvalidTransition, false, before, ids, false);
      DegradeHolds(noted, sid, Overflow, true, before, ids, false);
      assert [CoverageDegraded(sid, InvalidTransition)] != [CoverageDegraded(sid, Overflow)] by {
        assert [CoverageDegraded(sid, InvalidTransition)][0] != [CoverageDegraded(sid, Overflow)][0];
      }
    }
  }

  lemma SessionEventHolds(s: Reducer, e: Event)
    requires ReducerOk(s) && e.SessionEvent? && e.sessionID !in s.finalized.values && CanOpen(s, e.sessionID)
    ensures ValueHolds(s, e, ReduceSessionEvent(s, e).0)
  {
    hide ReducerOk, OpenSession, NoteEvent, Judge, MarkOverflow, Degrade, CanOpen, Openable, Holds;
    var sid := e.sessionID;
    NotFinalTouch(s, sid);
    if sid in s.sessions {
      NotDeleted(s, sid);
    }
    OpenView(s, sid);
    OpenHolds(s, sid);
    EventJudged(s, sid, e.eventID, OfKind(sid, e.kind));
    assert [Boundary(sid, e.eventID, e.kind)][0] != CoverageDegraded(sid, Overflow);
    assert [CoverageDegraded(sid, InvalidTransition)][0] != CoverageDegraded(sid, Overflow);
  }

  /** Opened, noted and judged, with the degradation a bad judgement brings. */
  lemma EventJudged(s: Reducer, sid: string, id: Option<string>, fingerprint: Fingerprint)
    requires ReducerOk(s) && CanOpen(s, sid)
    ensures sid in OpenSession(s, sid).sessions
    ensures var before, ids, off := StatusesBefore(s, sid), IdsBefore(s, sid), Off(s, sid);
            var (noted, replay) := NoteEvent(OpenSession(s, sid), sid, id, fingerprint);
            && sid in noted.sessions
            && Holds(noted.sessions[sid], before, if replay.New? && id.Some? then ids + {id.value} else ids, off)
            && (replay.New? <==> Judge(s, sid, id, fingerprint).Fresh?)
            && (replay.Replayed? <==> Judge(s, sid, id, fingerprint).Again?)
            && (replay.Conflict? <==> Judge(s, sid, id, fingerprint).Otherwise?)
            && (!replay.New? ==>
                  var conflict, full := Degrade(noted, sid, InvalidTransition, false).0, Degrade(noted, sid, Overflow, true).0;
                  && sid in conflict.sessions && Holds(conflict.sessions[sid], before, ids, off)
                  && sid in full.sessions && Holds(full.sessions[sid], before, ids, true))
  {
    hide ReducerOk, OpenSession, NoteEvent, Judge, Degrade, CanOpen, Holds;
    OpenView(s, sid);
    OpenHolds(s, sid);
    var before, ids, off := StatusesBefore(s, sid), IdsBefore(s, sid), Off(s, sid);
    NoteView(s, sid, id, fingerprint);
    NoteHolds(OpenSession(s, sid), sid, id, fingerprint, before, ids, off);
    var (noted, replay) := NoteEvent(OpenSession(s, sid), sid, id, fingerprint);
    if !replay.New? {
      DegradeHolds(noted, sid, InvalidTransition, false, before, ids, off);
      DegradeHolds(noted, sid, Overflow, true, before, ids, off);
    }
  }

  lemma DeletedHolds(s: Reducer, e: Event)
    requires ReducerOk(s) && e.SessionDeleted? && e.sessionID !in s.finalized.values && !AcceptsDelete(s, e) && CanOpen(s, e.sessionID)
    ensures ValueHolds(s, e, ReduceDeleted(s, e).0)
  {
    hide ReducerOk, OpenSession, NoteEvent, Judge, MarkOverflow, Degrade, CanOpen, Openable, FinishSession, AcceptsDelete, Holds;
    var sid := e.sessionID;
    NotFinalTouch(s, sid);
    if sid in s.sessions {
      NotDeleted(s, sid);
    }
    OpenView(s, sid);
    AcceptsIff(s, e);
    DegradeOpens(s, sid, MissingField, true);
    EventJudged(s, sid, e.eventID, OfKind(sid, Deletion));
    assert [CoverageDegraded(sid, InvalidTransition)][0] != CoverageDegraded(sid, Overflow);
  }

  lemma ValueIsHeld(s: Reducer, e: Event)
    requires ReducerOk(s) && !e.Irrelevant? && e.sessionID !in s.finalized.values && !AcceptsDelete(s, e) && Openable(s, e.sessionID)
    ensures ValueHolds(s, e, ReduceValue(s, e).0)
  {
    hide ReducerOk, ReduceTool, ReduceDeleted, ReduceSessionEvent, AcceptsDelete, ValueHolds, Openable, CanOpen;
    NotFinalTouch(s, e.sessionID);
    match e
    case ToolUpdated(_, _, _, _) => ToolHolds(s, e);
    case SessionDeleted(_, _, _) => DeletedHolds(s, e);
    case SessionEvent(_, _, _) => SessionEventHolds(s, e);
  }

  lemma KeepsBounded(s: Reducer, e: Event, sid: string)
    requires ReducerOk(s) && !AcceptsDelete(s, e) && sid == SessionOf(e)
    requires forall r <- ReduceValue(s, e).1 :: r.sessionID == sid
    ensures var (reduced, records) := ReduceValue(s, e);
            Reduce(s, e).0 == if |records| == 0 then reduced else BoundedGroup(reduced, sid, records).0
  {
    hide ReducerOk, ReduceValue, BoundedGroup, Evict, AcceptsDelete, Proposed;
    var (reduced, records) := ReduceValue(s, e);
    ReduceProposes(s, e);
    ProposedParts(reduced, sid, records);
    QuotaOk(reduced, sid, records);
    NothingToEvict(BoundedRecords(reduced, records).0);
    NothingToBound(reduced);
    if |records| > 0 {
      BoundedIsGroup(reduced, sid, records);
    }
  }

  /**
   * A session that is live or can be opened, and is not ended by the event, is
   * live after it, with exactly the calls, the statuses and the event ids of the
   * tables, and disabled exactly when the tables say.
   */
  lemma Keeps(s: Reducer, e: Event)
    requires ReducerOk(s) && !e.Irrelevant? && e.sessionID !in s.finalized.values && Openable(s, e.sessionID) && !AcceptsDelete(s, e)
    ensures var s' := Reduce(s, e).0;
            e.sessionID in s'.sessions &&
            Holds(s'.sessions[e.sessionID], StatusesAfter(s, e), IdsAfter(s, e), Off(s, e.sessionID) || Switches(s, e))
  {
    hide ReducerOk, ReduceValue, BoundedGroup, Reduce, LiveAnswer, Openable, Judge, AcceptsDelete, Holds, StatusesAfter, IdsAfter, Shaped;
    var sid := e.sessionID;
    ValueProposes(s, e);
    ValueIsHeld(s, e);
    OwnRecords(s, e);
    AnswersShaped(s, e);
    AcceptsIfDeletion(s, e);
    KeepsBounded(s, e, sid);
    var (reduced, records) := ReduceValue(s, e);
    if |records| > 0 {
      GroupHolds(reduced, sid, records, StatusesAfter(s, e), IdsAfter(s, e), Off(s, sid) || SwitchedByValue(s, e));
    }
    SwitchesIs(s, e);
  }

  lemma AcceptsIfDeletion(s: Reducer, e: Event)
    requires ReducerOk(s)
    ensures e.SessionDeleted? && !AcceptsDelete(s, e) && e.sessionID !in s.finalized.values && Openable(s, e.sessionID) && !e.foreign ==>
      !Judge(s, e.sessionID, e.eventID, OfKind(e.sessionID, Deletion)).Fresh?
  {
    hide ReducerOk, Openable, Judge, AcceptsDelete;
    if e.SessionDeleted? {
      AcceptsIff(s, e);
    }
  }

  /** A disabled session stays so; of an enabled one the value's switch and the quota's are all there is. */
  lemma SwitchesIs(s: Reducer, e: Event)
    requires ReducerOk(s) && !e.Irrelevant?
    ensures var sid := e.sessionID;
            var answer := LiveAnswer(s, e);
            Off(s, sid) || Switches(s, e) <==>
            Off(s, sid) || SwitchedByValue(s, e)
            || (|answer| > 0 && !(sid in s.sessions && s.sessions[sid].overflowReported)
                && Spent(s, sid) + |answer| > if answer[0].CoverageDegraded? then 996 else 995)
  {
    hide ReducerOk, LiveAnswer, Judge;
  }

  /** Fingerprints tell events apart by session, call, tool, status, and the input if it has a digest. */
  lemma SameFingerprintIff(sid: string, a: ToolCall, sid': string, b: ToolCall)
    ensures ToolFingerprint(sid, a) == ToolFingerprint(sid', b) <==>
      && sid == sid' && a.callID == b.callID && a.tool == b.tool && a.status == b.status
      && (a.input.Digestible? <==> b.input.Digestible?)
      && (a.input.Digestible? ==> a.input.text == b.input.text)
  {
  }

  // ----- what a finalized session keeps of an event -----

  predicate Complete(e: Event) {
    match e
    case Irrelevant => false
    case ToolUpdated(_, _, foreign, call) => !foreign && call.Some?
    case SessionEvent(_, _, _) => true
    case SessionDeleted(_, _, foreign) => !foreign
  }

  /** A finalized session remembers the ids of complete events, up to eight. */
  function FinalIdsAfter(f: Finalized, e: Event): set<string> {
    if Complete(e) && e.eventID.Some? && |f.events| < 8 then f.events.Keys + {e.eventID.value} else f.events.Keys
  }

  lemma FinalKeeps(s: Reducer, e: Event)
    requires ReducerOk(s) && !e.Irrelevant? && e.sessionID in s.finalized.values
    ensures var s', f := Reduce(s, e).0, s.finalized.values[e.sessionID];
            && e.sessionID in s'.finalized.values && e.sessionID !in s'.sessions
            && s'.finalized.values[e.sessionID].events.Keys == FinalIdsAfter(f, e)
            && (s'.finalized.values[e.sessionID].degradationReported <==> f.degradationReported || FinalAnswer(f, e) != [])
  {
    hide ReducerOk, ReduceValue, BoundedGroup, Reduce, FinalAnswer, FinalIdsAfter, Evict;
    var sid := e.sessionID;
    OwnRecords(s, e);
    AnswersShaped(s, e);
    FinalValue(s, e);
    FinalValueIds(s, e);
    NotAccepted(s, e);
    KeepsBounded(s, e, sid);
    var (reduced, records) := ReduceValue(s, e);
    if |records| > 0 {
      GoneKeeps(reduced, sid, records);
    }
  }

  lemma NotAccepted(s: Reducer, e: Event)
    requires !e.Irrelevant? && e.sessionID in s.finalized.values
    ensures !AcceptsDelete(s, e)
  {
  }

  lemma GoneKeeps(reduced: Reducer, sid: string, answer: seq<Record>)
    requires |answer| == 1 && answer[0].CoverageDegraded? && sid !in reduced.sessions && sid in reduced.finalized.values
    ensures var s' := BoundedGroup(reduced, sid, answer).0;
            && s'.sessions == reduced.sessions && sid in s'.finalized.values
            && s'.finalized.values[sid].events == reduced.finalized.values[sid].events
            && s'.finalized.values[sid].degradationReported
  {
    hide InsertionMap.Touch;
    ShapeKinds(answer);
    TouchValues(reduced.finalized, sid);
  }

  lemma FinalValueIds(s: Reducer, e: Event)
    requires ReducerOk(s) && !e.Irrelevant? && e.sessionID in s.finalized.values
    ensures var f' := ReduceValue(s, e).0.finalized.values;
            e.sessionID in f' && f'[e.sessionID].events.Keys == FinalIdsAfter(s.finalized.values[e.sessionID], e)
  {
    hide ReducerOk, ToolFingerprint, ReduceCall, Degrade, TouchFinalized, MarkOverflow, NoteEvent, OpenSession, CanOpen, FinishSession,
         ReduceFinalized;
    var sid := e.sessionID;
    TouchOk(s, sid);
    var touched := TouchFinalized(s, sid);
    var f := s.finalized.values[sid];
    assert touched.finalized.values[sid] == f;
    if Complete(e) {
      var fingerprint := match e
        case ToolUpdated(_, _, _, call) => ToolFingerprint(sid, call.value)
        case SessionEvent(_, _, kind) => OfKind(sid, kind)
        case _ => OfKind(sid, Deletion);
      CheckedIds(touched, sid, e.eventID, fingerprint);
    }
  }

  lemma CheckedIds(s: Reducer, sid: string, id: Option<string>, fingerprint: Fingerprint)
    requires sid in s.finalized.values
    ensures var f, f' := s.finalized.values[sid], ReduceFinalized(s, sid, id, fingerprint).0.finalized.values;
            sid in f' && f'[sid].events.Keys == if id.Some? && |f.events| < 8 then f.events.Keys + {id.value} else f.events.Keys
  {
  }

  /** A session there is no room for is marked, and stays out of the other tables. */
  lemma StaysMarked(s: Reducer, e: Event)
    requires ReducerOk(s) && !e.Irrelevant? && e.sessionID !in s.finalized.values && !Openable(s, e.sessionID)
    ensures var s' := Reduce(s, e).0;
            e.sessionID !in s'.sessions && e.sessionID !in s'.finalized.values && e.sessionID in s'.overflow.values
  {
    hide ReducerOk, ReduceValue, BoundedGroup, Reduce, LiveAnswer, Openable, Judge, AcceptsDelete;
    var sid := e.sessionID;
    if e.SessionDeleted? {
      AcceptsIff(s, e);
    } else {
      NoDeletion(s, e);
    }
    ValueProposes(s, e);
    OwnRecords(s, e);
    KeepsBounded(s, e, sid);
    var (reduced, records) := ReduceValue(s, e);
    if |records| > 0 {
      MarkedKeeps(reduced, sid, records);
    }
  }

  lemma NoDeletion(s: Reducer, e: Event)
    ensures !e.SessionDeleted? ==> !AcceptsDelete(s, e)
  {
  }

  lemma MarkedKeeps(reduced: Reducer, sid: string, answer: seq<Record>)
    requires |answer| > 0 && sid !in reduced.sessions && sid !in reduced.finalized.values && sid in reduced.overflow.values
    ensures var s' := BoundedGroup(reduced, sid, answer).0;
            sid !in s'.sessions && sid !in s'.finalized.values && sid in s'.overflow.values
  {
  }
}
