/** The OpenCode event reducer. */
module OpenCodeReducer {
  // Provider events in, at most 997 records per session lifetime out, with
  // replay detection and bounded tables.
  //
  // Digests are taken as injective, so a table keyed by the digest of an
  // identifier is keyed here by the identifier, and a fingerprint is the term
  // that the source digests.

  import opened Util
  import opened InsertionMaps
  import opened CanonicalJson

  const MAX_SESSIONS: nat := 256
  const MAX_CALLS_PER_SESSION: nat := 1_000
  const MAX_EVENT_IDS_PER_SESSION: nat := 4_096
  const MAX_REDUCED_RECORDS_PER_SESSION: nat := 997
  const MAX_FINALIZED_SESSIONS: nat := 1_024
  const MAX_FINALIZED_EVENT_IDS: nat := 8
  const MAX_OVERFLOW_SESSION_MARKERS: nat := 1_024
  const MAX_REDUCER_STATE_BYTES: nat := 2 * 1024 * 1024
  const SESSION_STATE_OVERHEAD_BYTES: nat := 256
  const CALL_STATE_OVERHEAD_BYTES: nat := 192
  const EVENT_STATE_OVERHEAD_BYTES: nat := 160

  // ----- events, after the privacy boundary -----

  datatype Status = Pending | Running | Completed | Failed

  function Rank(status: Status): nat {
    match status
    case Pending => 0
    case Running => 1
    case _ => 2
  }

  predicate Terminal(status: Status) {
    status.Completed? || status.Failed?
  }

  /** A tool input: not canonical JSON, canonical by itself but too large once wrapped for its digest, or digestible. */
  datatype Input = NotCanonical | Undigestible(text: string) | Digestible(text: string)

  datatype ToolCall = ToolCall(callID: string, tool: string, status: Status, input: Input)

  datatype Kind = Idle | Error | Compacted | Deletion

  /** `foreign` is an outer session id that differs; `call` is absent when a field of it is missing or malformed. */
  datatype Event =
    | Irrelevant
    | ToolUpdated(sessionID: string, eventID: Option<string>, foreign: bool, call: Option<ToolCall>)
    | SessionDeleted(sessionID: string, eventID: Option<string>, foreign: bool)
    | SessionEvent(sessionID: string, eventID: Option<string>, kind: Kind)

  // ----- records -----

  datatype Reason = InvalidTransition | MissingField | Overflow

  datatype Record =
    | ToolStarted(sessionID: string, eventID: Option<string>, callID: string, tool: string, input: Option<string>)
    | ToolFinished(sessionID: string, eventID: Option<string>, callID: string, succeeded: bool)
    | Boundary(sessionID: string, eventID: Option<string>, kind: Kind)
    | CoverageDegraded(sessionID: string, reason: Reason)
    | SessionFinished(sessionID: string, eventID: Option<string>)

  // ----- state -----

  datatype Identity = Unavailable(callID: string, tool: string) | Exact(tool: string, text: string)

  datatype Fingerprint =
    | OfTool(sessionID: string, callID: string, tool: string, status: Status, identity: Identity)
    | OfKind(sessionID: string, kind: Kind)

  datatype Call = Call(status: Status, identity: Identity, bytes: nat)

  datatype Seen = Seen(fingerprint: Fingerprint, bytes: nat)

  /** `stream` is what the session's lifetime has emitted so far, which the source does not keep. */
  datatype Session = Session(
    calls: map<string, Call>,
    events: map<string, Seen>,
    disabled: bool,
    deleted: bool,
    recordCount: nat,
    overflowReported: bool,
    bytes: nat,
    stream: seq<Record>)

  datatype Finalized = Finalized(events: map<string, Fingerprint>, degradationReported: bool)

  datatype Reducer = Reducer(
    sessions: map<string, Session>,
    finalized: InsertionMap<string, Finalized>,
    overflow: InsertionMap<string, bool>,
    evict: set<string>,
    stateBytes: int)

  const EMPTY := Reducer(map[], InsertionMap([], map[]), InsertionMap([], map[]), {}, 0)

  function IdentityOf(call: ToolCall): Identity {
    if call.input.Digestible? then Exact(call.tool, call.input.text) else Unavailable(call.callID, call.tool)
  }

  function ToolFingerprint(sessionID: string, call: ToolCall): Fingerprint {
    OfTool(sessionID, call.callID, call.tool, call.status, IdentityOf(call))
  }

  function PutSession(s: Reducer, sid: string, x: Session): Reducer {
    s.(sessions := s.sessions[sid := x])
  }

  // ----- the session tables -----

  predicate Affordable(s: Reducer, bytes: nat) {
    s.stateBytes + bytes <= MAX_REDUCER_STATE_BYTES
  }

  function SessionOverhead(sid: string): nat {
    SESSION_STATE_OVERHEAD_BYTES + Utf8Bytes(sid)
  }

  predicate CanOpen(s: Reducer, sid: string) {
    sid in s.sessions || (|s.sessions| < MAX_SESSIONS && Affordable(s, SessionOverhead(sid)))
  }

  /** `#session`: the live session, opened if need be and if there is room. */
  function OpenSession(s: Reducer, sid: string): Reducer
    requires CanOpen(s, sid)
  {
    if sid in s.sessions then s
    else
      var marked := sid in s.overflow.values;
      var stream := if marked then [CoverageDegraded(sid, Overflow)] else [];
      PutSession(s, sid, Session(map[], map[], false, false, if marked then 1 else 0, false, SessionOverhead(sid), stream))
        .(overflow := s.overflow.Delete(sid), stateBytes := s.stateBytes + SessionOverhead(sid))
  }

  /** `#sessionOverflow`: a session there is no room for is reported when it gets its marker. */
  function MarkOverflow(s: Reducer, sid: string): (Reducer, seq<Record>) {
    if sid in s.overflow.values then (s.(overflow := s.overflow.Touch(sid)), [])
    else (s.(overflow := s.overflow.Remember(sid, true, MAX_OVERFLOW_SESSION_MARKERS)), [CoverageDegraded(sid, Overflow)])
  }

  function TouchFinalized(s: Reducer, sid: string): Reducer {
    s.(finalized := s.finalized.Touch(sid))
  }

  function RememberFinalized(s: Reducer, sid: string, eventID: Option<string>, fingerprint: Fingerprint): Reducer {
    var events := if eventID.Some? then map[eventID.value := fingerprint] else map[];
    s.(finalized := s.finalized.Remember(sid, Finalized(events, false), MAX_FINALIZED_SESSIONS))
  }

  /** An event of a finalized session is checked against the few event ids remembered for it. */
  function ReduceFinalized(s: Reducer, sid: string, eventID: Option<string>, fingerprint: Fingerprint): (Reducer, seq<Record>)
    requires sid in s.finalized.values
  {
    var f := s.finalized.values[sid];
    if eventID.None? then (s, [])
    else if eventID.value in f.events then
      (s, if f.events[eventID.value] == fingerprint then [] else [CoverageDegraded(sid, InvalidTransition)])
    else if |f.events| >= MAX_FINALIZED_EVENT_IDS then (s, [CoverageDegraded(sid, Overflow)])
    else (s.(finalized := s.finalized.Set(sid, f.(events := f.events[eventID.value := fingerprint]))), [])
  }

  function Degrade(s: Reducer, sid: string, reason: Reason, disable: bool): (Reducer, seq<Record>) {
    if !CanOpen(s, sid) then MarkOverflow(s, sid)
    else
      var s1 := OpenSession(s, sid);
      (if disable then PutSession(s1, sid, s1.sessions[sid].(disabled := true)) else s1, [CoverageDegraded(sid, reason)])
  }

  datatype Replay = New | Replayed | Conflict | Full

  function EventOverhead(eventID: string): nat {
    EVENT_STATE_OVERHEAD_BYTES + Utf8Bytes(eventID)
  }

  /** `#eventReplay`. */
  function NoteEvent(s: Reducer, sid: string, eventID: Option<string>, fingerprint: Fingerprint): (Reducer, Replay)
    requires sid in s.sessions
  {
    var x := s.sessions[sid];
    if eventID.None? then (s, New)
    else if eventID.value in x.events then
      (s, if x.events[eventID.value].fingerprint == fingerprint then Replayed else Conflict)
    else if |x.events| >= MAX_EVENT_IDS_PER_SESSION || !Affordable(s, EventOverhead(eventID.value)) then (s, Full)
    else
      (PutSession(s, sid, x.(events := x.events[eventID.value := Seen(fingerprint, EventOverhead(eventID.value))]))
         .(stateBytes := s.stateBytes + EventOverhead(eventID.value)),
       New)
  }

  // ----- tool calls -----

  function CallOverhead(call: ToolCall): nat {
    CALL_STATE_OVERHEAD_BYTES + Utf8Bytes(call.callID) + Utf8Bytes(call.tool)
  }

  function StartedRecord(sid: string, eventID: Option<string>, call: ToolCall): Record {
    ToolStarted(sid, eventID, call.callID, call.tool, if call.input.NotCanonical? then None else Some(call.input.text))
  }

  function FinishedRecord(sid: string, eventID: Option<string>, call: ToolCall): Record {
    ToolFinished(sid, eventID, call.callID, call.status.Completed?)
  }

  function SetCall(s: Reducer, sid: string, callID: string, call: Call): Reducer
    requires sid in s.sessions
  {
    PutSession(s, sid, s.sessions[sid].(calls := s.sessions[sid].calls[callID := call]))
  }

  function ReduceCall(s: Reducer, sid: string, eventID: Option<string>, call: ToolCall): (Reducer, seq<Record>)
    requires sid in s.sessions
  {
    var calls := s.sessions[sid].calls;
    if call.callID !in calls then
      if |calls| >= MAX_CALLS_PER_SESSION || !Affordable(s, CallOverhead(call)) then Degrade(s, sid, Overflow, true)
      else
        (SetCall(s, sid, call.callID, Call(call.status, IdentityOf(call), CallOverhead(call)))
           .(stateBytes := s.stateBytes + CallOverhead(call)),
         [StartedRecord(sid, eventID, call)] + if Terminal(call.status) then [FinishedRecord(sid, eventID, call)] else [])
    else
      var prior := calls[call.callID];
      if prior.identity != IdentityOf(call) then Degrade(s, sid, InvalidTransition, false)
      else if Rank(call.status) < Rank(prior.status) || (Terminal(prior.status) && call.status != prior.status) then
        Degrade(s, sid, InvalidTransition, false)
      else
        (SetCall(s, sid, call.callID, prior.(status := call.status)),
         if call.status == prior.status || !Terminal(call.status) then [] else [FinishedRecord(sid, eventID, call)])
  }

  // ----- the three kinds of event -----

  function ReduceTool(start: Reducer, e: Event): (Reducer, seq<Record>)
    requires e.ToolUpdated?
  {
    var sid := e.sessionID;
    var s := TouchFinalized(start, sid);
    var finalized := sid in s.finalized.values;
    if !finalized && sid in s.sessions && (s.sessions[sid].disabled || s.sessions[sid].deleted) then (s, [])
    else if e.foreign || e.call.None? then
      if finalized then (s, [CoverageDegraded(sid, MissingField)]) else Degrade(s, sid, MissingField, true)
    else
      var call := e.call.value;
      var fingerprint := ToolFingerprint(sid, call);
      if finalized then ReduceFinalized(s, sid, e.eventID, fingerprint)
      else if !CanOpen(s, sid) then MarkOverflow(s, sid)
      else
        var (noted, replay) := NoteEvent(OpenSession(s, sid), sid, e.eventID, fingerprint);
        match replay
        case Replayed => (noted, [])
        case Conflict => Degrade(noted, sid, InvalidTransition, false)
        case Full => Degrade(noted, sid, Overflow, true)
        case New => ReduceCall(noted, sid, e.eventID, call)
  }

  function CallSize(call: Call): nat { call.bytes }

  function SeenSize(seen: Seen): nat { seen.bytes }

  /** The bytes a session accounts for: its own, its calls' and its events'. */
  ghost function SessionSize(x: Session): nat {
    x.bytes + SumOver(x.calls, CallSize) + SumOver(x.events, SeenSize)
  }

  /** `#releaseSession`, with the clamp at zero. */
  ghost function ReleaseSession(s: Reducer, sid: string): Reducer
    requires sid in s.sessions
  {
    var x := s.sessions[sid];
    PutSession(s, sid, x.(calls := map[], events := map[])).(stateBytes := Max(0, s.stateBytes - SessionSize(x)))
  }

  ghost function FinishSession(s: Reducer, sid: string, eventID: Option<string>): (Reducer, seq<Record>)
    requires sid in s.sessions
  {
    var deleted := PutSession(s, sid, s.sessions[sid].(deleted := true));
    var remembered := RememberFinalized(deleted, sid, eventID, OfKind(sid, Deletion));
    var released := ReleaseSession(remembered, sid);
    (released.(evict := released.evict + {sid}), [SessionFinished(sid, eventID)])
  }

  ghost function ReduceDeleted(start: Reducer, e: Event): (Reducer, seq<Record>)
    requires e.SessionDeleted?
  {
    var sid := e.sessionID;
    var s := TouchFinalized(start, sid);
    var finalized := sid in s.finalized.values;
    if e.foreign then
      if finalized then (s, [CoverageDegraded(sid, MissingField)]) else Degrade(s, sid, MissingField, true)
    else if finalized then ReduceFinalized(s, sid, e.eventID, OfKind(sid, Deletion))
    else if !CanOpen(s, sid) then MarkOverflow(s, sid)
    else
      var live := OpenSession(s, sid);
      if live.sessions[sid].deleted then (live, [])
      else
        var (noted, replay) := NoteEvent(live, sid, e.eventID, OfKind(sid, Deletion));
        match replay
        case Replayed => (noted, [])
        case Conflict => Degrade(noted, sid, InvalidTransition, false)
        case Full => Degrade(noted, sid, Overflow, true)
        case New => FinishSession(noted, sid, e.eventID)
  }

  function ReduceSessionEvent(start: Reducer, e: Event): (Reducer, seq<Record>)
    requires e.SessionEvent?
  {
    var sid := e.sessionID;
    var s := TouchFinalized(start, sid);
    if sid in s.finalized.values then ReduceFinalized(s, sid, e.eventID, OfKind(sid, e.kind))
    else if !CanOpen(s, sid) then MarkOverflow(s, sid)
    else
      var live := OpenSession(s, sid);
      if live.sessions[sid].disabled || live.sessions[sid].deleted then (live, [])
      else
        var (noted, replay) := NoteEvent(live, sid, e.eventID, OfKind(sid, e.kind));
        match replay
        case Replayed => (noted, [])
        case Conflict => Degrade(noted, sid, InvalidTransition, false)
        case Full => Degrade(noted, sid, Overflow, true)
        case New => (noted, [Boundary(sid, e.eventID, e.kind)])
  }

  /** `#reduceValue`: what the event would emit if there were no quota. */
  ghost function ReduceValue(s: Reducer, e: Event): (Reducer, seq<Record>) {
    match e
    case Irrelevant => (s, [])
    case ToolUpdated(_, _, _, _) => ReduceTool(s, e)
    case SessionDeleted(_, _, _) => ReduceDeleted(s, e)
    case SessionEvent(_, _, _) => ReduceSessionEvent(s, e)
  }

  // ----- the record quota -----

  predicate AllDegraded(records: seq<Record>) {
    forall r <- records :: r.CoverageDegraded?
  }

  predicate AllFinished(records: seq<Record>) {
    forall r <- records :: r.SessionFinished?
  }

  function Admit(s: Reducer, sid: string, records: seq<Record>): Reducer
    requires sid in s.sessions
  {
    var x := s.sessions[sid];
    PutSession(s, sid, x.(recordCount := x.recordCount + |records|, stream := x.stream + records))
  }

  function Limit(records: seq<Record>): nat {
    if AllFinished(records) then MAX_REDUCED_RECORDS_PER_SESSION
    else if AllDegraded(records) then MAX_REDUCED_RECORDS_PER_SESSION - 1
    else MAX_REDUCED_RECORDS_PER_SESSION - 2
  }

  /** The records of one session: admitted whole, or suppressed with at most one overflow notice. */
  function BoundedGroup(s: Reducer, sid: string, records: seq<Record>): (Reducer, seq<Record>)
    requires |records| > 0
  {
    if sid !in s.sessions then
      var touched := TouchFinalized(s, sid);
      if sid in touched.finalized.values then
        var f := touched.finalized.values[sid];
        if !f.degradationReported && AllDegraded(records) then
          (touched.(finalized := touched.finalized.Set(sid, f.(degradationReported := true))), [records[0]])
        else (touched, [])
      else if sid in touched.overflow.values && AllDegraded(records) then (touched, [records[0]])
      else (touched, [])
    else
      var x := s.sessions[sid];
      if x.overflowReported then
        if AllFinished(records) && x.recordCount + |records| <= MAX_REDUCED_RECORDS_PER_SESSION
        then (Admit(s, sid, records), records) else (s, [])
      else if x.recordCount + |records| <= Limit(records) then (Admit(s, sid, records), records)
      else
        var disabled := PutSession(s, sid, x.(disabled := true, overflowReported := true));
        if x.recordCount < MAX_REDUCED_RECORDS_PER_SESSION - 1
        then (Admit(disabled, sid, [CoverageDegraded(sid, Overflow)]), [CoverageDegraded(sid, Overflow)])
        else (disabled, [])
  }

  function OfSession(records: seq<Record>, sid: string): (of: seq<Record>)
    ensures |of| <= |records|
  {
    if |records| == 0 then []
    else (if records[0].sessionID == sid then [records[0]] else []) + OfSession(records[1..], sid)
  }

  function NotOfSession(records: seq<Record>, sid: string): (others: seq<Record>)
    ensures |others| <= |records|
    ensures |records| > 0 && records[0].sessionID == sid ==> |others| < |records|
  {
    if |records| == 0 then []
    else (if records[0].sessionID == sid then [] else [records[0]]) + NotOfSession(records[1..], sid)
  }

  /** `#boundedRecords`: group by session, in the order the sessions first appear. */
  function BoundedRecords(s: Reducer, records: seq<Record>): (Reducer, seq<Record>)
    decreases |records|
  {
    if |records| == 0 then (s, [])
    else
      var sid := records[0].sessionID;
      var (s1, admitted) := BoundedGroup(s, sid, [records[0]] + OfSession(records[1..], sid));
      var (s2, more) := BoundedRecords(s1, NotOfSession(records, sid));
      (s2, admitted + more)
  }

  function Evict(s: Reducer): Reducer {
    s.(sessions := s.sessions - s.evict, evict := {})
  }

  /** `reduce`. */
  ghost function Reduce(s: Reducer, e: Event): (Reducer, seq<Record>) {
    var (reduced, records) := ReduceValue(s, e);
    var (bounded, admitted) := BoundedRecords(reduced, records);
    (Evict(bounded), admitted)
  }
}
