/** The Pi window reducer. */
module PiReducer {
  // One observation window, at most 997 records; a tool call is reported only
  // when it ends, as a start and a finish together.
  //
  // Digests are taken as injective: tables are keyed by call id and fingerprints
  // are the terms that the source digests.

  import opened Util

  const MAX_CALLS_PER_WINDOW: nat := 1_000
  const MAX_REDUCED_RECORDS_PER_WINDOW: nat := 997
  const MAX_REDUCER_STATE_BYTES: nat := 2 * 1024 * 1024
  const CALL_STATE_OVERHEAD_BYTES: nat := 192
  const FINAL_CALL_STATE_BYTES: nat := 192

  datatype Reason = AmbiguousError | InvalidTransition | MissingField | Overflow | UnmatchedStart

  datatype Body =
    | ToolStarted(callID: string, tool: string)
    | ToolFinished(callID: string)
    | TurnFinished
    | Compaction(cause: string, fromExtension: bool, willRetry: bool)
    | TreeMove(oldLeaf: Option<string>, newLeaf: Option<string>)
    | CoverageDegraded(reason: Reason)
    | SessionFinished(why: string)

  datatype Coordinates = Coordinates(sessionID: string, windowDiscriminator: string)

  datatype Record = Record(window: Coordinates, eventID: nat, body: Body)

  /** What is read from an event; None where a required field is missing or malformed. */
  datatype Event =
    | Ignored
    | Unreadable
    | BeforeAgentStart
    | ToolStart(call: Option<(string, string)>)
    | ToolEnd(ended: Option<(string, string, bool)>)
    | AgentSettled
    | SessionCompact(compaction: Option<(string, bool, bool)>)
    | SessionTree(move: Option<(Option<string>, Option<string>)>)
    | SessionShutdown(reason: Option<string>)

  datatype StartPrint = StartPrint(callID: string, tool: string)

  datatype EndPrint = EndPrint(callID: string, tool: string, isError: bool)

  datatype PendingCall = PendingCall(start: StartPrint, bytes: nat)

  datatype FinalCall = FinalCall(start: Option<StartPrint>, end: Option<EndPrint>, bytes: nat)

  /** `emitted` is the whole output of the window so far, which the source does not keep. */
  datatype Window = Window(
    coordinates: Coordinates,
    pending: map<string, PendingCall>,
    final: map<string, FinalCall>,
    stateBytes: int,
    recordCount: nat,
    nextEventID: nat,
    overflowReported: bool,
    disabled: bool,
    finished: bool,
    turnOpen: bool,
    emitted: seq<Record>)

  function Initial(coordinates: Coordinates): Window {
    Window(coordinates, map[], map[], 0, 0, 1, false, false, false, false, [])
  }

  // ----- admission -----

  datatype Mode = Normal | Degradation | Closing

  function Limit(mode: Mode): nat {
    match mode
    case Closing => MAX_REDUCED_RECORDS_PER_WINDOW
    case Degradation => MAX_REDUCED_RECORDS_PER_WINDOW - 1
    case Normal => MAX_REDUCED_RECORDS_PER_WINDOW - 2
  }

  function Materialize(w: Window, body: Body): Window {
    w.(emitted := w.emitted + [Record(w.coordinates, w.nextEventID, body)],
       nextEventID := w.nextEventID + 1, recordCount := w.recordCount + 1)
  }

  function MaterializeAll(w: Window, bodies: seq<Body>): Window
    decreases |bodies|
  {
    if |bodies| == 0 then w else MaterializeAll(Materialize(w, bodies[0]), bodies[1..])
  }

  /** `#admit`: all the bodies, or in normal mode at most one overflow notice and the window is disabled. */
  function Admit(w: Window, bodies: seq<Body>, mode: Mode): Window {
    if |bodies| == 0 then w
    else if w.recordCount + |bodies| <= Limit(mode) then MaterializeAll(w, bodies)
    else if !mode.Normal? then w
    else if !w.overflowReported && w.recordCount < MAX_REDUCED_RECORDS_PER_WINDOW - 1 then
      Materialize(w.(disabled := true, overflowReported := true), CoverageDegraded(Overflow))
    else w.(disabled := true)
  }

  function Degrade(w: Window, reason: Reason): Window {
    if w.finished then w
    else if reason.Overflow? && w.overflowReported then w.(disabled := true)
    else if reason.Overflow? then
      Admit(w.(disabled := true, overflowReported := true), [CoverageDegraded(Overflow)], Degradation)
    else Admit(w, [CoverageDegraded(reason)], Degradation)
  }

  // ----- the tables of calls -----

  predicate Reservable(w: Window, bytes: nat) {
    w.stateBytes + bytes <= MAX_REDUCER_STATE_BYTES
  }

  function Release(w: Window, bytes: int): Window {
    w.(stateBytes := Max(0, w.stateBytes - bytes))
  }

  function DropPending(w: Window, c: string): Window
    requires c in w.pending
  {
    Release(w.(pending := w.pending - {c}), w.pending[c].bytes)
  }

  /** `#rememberFinal` followed by the degradation its callers report. */
  function RememberFinal(w: Window, c: string, start: Option<StartPrint>, end: Option<EndPrint>): Window {
    w.(final := w.final[c := FinalCall(start, end, FINAL_CALL_STATE_BYTES)], stateBytes := w.stateBytes + FINAL_CALL_STATE_BYTES)
  }

  function FinalOrOverflow(w: Window, c: string, start: Option<StartPrint>, end: Option<EndPrint>, reason: Reason): Window {
    if !Reservable(w, FINAL_CALL_STATE_BYTES) then Degrade(w, Overflow)
    else Degrade(RememberFinal(w, c, start, end), reason)
  }

  /** The pending calls as the final calls they become. */
  function AsFinal(pending: map<string, PendingCall>): map<string, FinalCall> {
    map c | c in pending :: FinalCall(Some(pending[c].start), None, FINAL_CALL_STATE_BYTES)
  }

  /** `#clearPending`: every pending call becomes final, at no cost in bytes. */
  function ClearPending(w: Window): Window {
    w.(final := w.final + AsFinal(w.pending), pending := map[])
  }

  function Unmatched(w: Window): seq<Body> {
    if |w.pending| > 0 then [CoverageDegraded(UnmatchedStart)] else []
  }

  // ----- the events -----

  function ReduceStart(w: Window, call: Option<(string, string)>): Window {
    if w.disabled then w
    else if call.None? then Degrade(w, MissingField)
    else
      var (c, tool) := call.value;
      var start := StartPrint(c, tool);
      if c in w.final then
        if w.final[c].start == Some(start) then w else Degrade(w, InvalidTransition)
      else if c in w.pending then
        if w.pending[c].start == start then w
        else FinalOrOverflow(DropPending(w, c), c, None, None, InvalidTransition)
      else if |w.pending| + |w.final| >= MAX_CALLS_PER_WINDOW || !Reservable(w, CALL_STATE_OVERHEAD_BYTES) then
        Degrade(w, Overflow)
      else
        w.(pending := w.pending[c := PendingCall(start, CALL_STATE_OVERHEAD_BYTES)],
           stateBytes := w.stateBytes + CALL_STATE_OVERHEAD_BYTES, turnOpen := true)
  }

  function ReduceEnd(w: Window, ended: Option<(string, string, bool)>): Window {
    if w.disabled then w
    else if ended.None? then Degrade(w, MissingField)
    else
      var (c, tool, isError) := ended.value;
      var start, end := StartPrint(c, tool), EndPrint(c, tool, isError);
      if c in w.final then
        if w.final[c].end == Some(end) then w
        else
          var noted := if w.final[c].end.None? then w.(final := w.final[c := w.final[c].(end := Some(end))]) else w;
          Degrade(noted, InvalidTransition)
      else if c !in w.pending then
        if |w.pending| + |w.final| >= MAX_CALLS_PER_WINDOW then Degrade(w, Overflow)
        else FinalOrOverflow(w, c, None, Some(end), InvalidTransition)
      else
        var dropped := DropPending(w, c);
        if w.pending[c].start != start then FinalOrOverflow(dropped, c, None, None, InvalidTransition)
        else if !Reservable(dropped, FINAL_CALL_STATE_BYTES) then Degrade(dropped, Overflow)
        else
          var closed := RememberFinal(dropped, c, Some(start), Some(end));
          if isError then Degrade(closed, AmbiguousError)
          else Admit(closed, [ToolStarted(c, tool), ToolFinished(c)], Normal)
  }

  function ReduceSettled(w: Window): Window {
    var bodies := Unmatched(w) + if w.turnOpen then [TurnFinished] else [];
    Admit(ClearPending(w).(turnOpen := false), bodies, Normal)
  }

  function ReduceBoundary(w: Window, boundary: Body): Window {
    Admit(ClearPending(w), Unmatched(w) + [boundary], Normal)
  }

  /** The shutdown drops the unmatched-start notice rather than the terminal record. */
  function ReduceShutdown(w: Window, why: string): Window {
    var bodies := Unmatched(w) + [SessionFinished(why)];
    var kept := if w.recordCount + |bodies| > MAX_REDUCED_RECORDS_PER_WINDOW then [SessionFinished(why)] else bodies;
    Admit(ClearPending(w).(turnOpen := false), kept, Closing).(finished := true)
  }

  function Reduce(w: Window, e: Event): Window {
    if w.finished then w
    else
      match e
      case Ignored => w
      case Unreadable => Degrade(w, MissingField)
      case BeforeAgentStart =>
        if w.disabled then w
        else if w.turnOpen then Degrade(w, InvalidTransition)
        else w.(turnOpen := true)
      case ToolStart(call) => ReduceStart(w, call)
      case ToolEnd(ended) => ReduceEnd(w, ended)
      case AgentSettled => ReduceSettled(w)
      case SessionCompact(None) => Degrade(w, MissingField)
      case SessionCompact(Some(c)) => ReduceBoundary(w, Compaction(c.0, c.1, c.2))
      case SessionTree(None) => Degrade(w, MissingField)
      case SessionTree(Some(m)) => ReduceBoundary(w, TreeMove(m.0, m.1))
      case SessionShutdown(None) => Degrade(w, MissingField)
      case SessionShutdown(Some(why)) => ReduceShutdown(w, why)
  }

  /** What one call returns: the records emitted since. */
  function Output(was: Window, now: Window): seq<Record> {
    if |now.emitted| < |was.emitted| then [] else now.emitted[|was.emitted|..]
  }

  datatype Step = DoReduce(event: Event) | DoDegrade(reason: Reason)

  function Do(w: Window, step: Step): Window {
    match step
    case DoReduce(e) => Reduce(w, e)
    case DoDegrade(reason) => Degrade(w, reason)
  }

  function After(w: Window, steps: seq<Step>): Window
    decreases |steps|
  {
    if |steps| == 0 then w else After(Do(w, steps[0]), steps[1..])
  }
}
