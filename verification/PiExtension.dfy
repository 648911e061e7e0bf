/** The Pi extension. */
module PiExtension {
  // One observation window at a time, its records buffered and flushed by a
  // transport that only ever serves one flush, because every callback runs on one
  // serial queue.

  import opened Util
  import opened Transport
  import RuntimeBytes
  import P = PiReducer

  const MAX_SESSION_BUFFER_BYTES: nat := 512 * 1024

  type PiRecord = P.Record

  /**
   * Everything outside: how events are chunked (None when that throws), what
   * each launcher answers, and the encoded size of a record, None for a record
   * that normalizes to an oversize placeholder.  All but the sizes may depend
   * on the whole history.
   */
  datatype World = World(
    build: (History, seq<Event>) -> Option<seq<seq<Event>>>,
    ok: (History, nat) -> bool,
    size: PiRecord -> Option<nat>,
    placeholder: PiRecord -> nat)

  ghost predicate WorldOk(world: World) {
    forall h, events :: world.build(h, events).Some? ==> ValidBuild(events, world.build(h, events).value)
  }

  datatype Active = Active(reducer: P.Window, records: seq<Record>, bytes: nat)

  datatype Extension = Extension(active: Option<Active>, transport: State)

  const INITIAL := Extension(None, State(Poison, map[], 0, false, 0, Start))

  function KeyOf(c: P.Coordinates): Key {
    Window(c.sessionID, c.windowDiscriminator)
  }

  // ----- one flush from start to end -----

  /** The loop over the chunks. */
  function WriteAll(t: State, f: Flight, world: World): (end: (State, Flight))
    requires !f.writing && f.next <= |f.chunks|
    ensures end.1.next == |end.1.chunks| && !end.1.writing
    decreases |f.chunks| - f.next
  {
    if f.next == |f.chunks| then (t, f)
    else
      var (t1, f1) := StartWrite(t, f);
      if !f1.writing then WriteAll(t1, f1, world)
      else
        var (t2, f2) := SettleWrite(t1, f1, world.ok(t1.log, f1.next));
        WriteAll(t2, f2, world)
  }

  ghost function FlushAll(t: State, k: Key, records: seq<Record>, force: bool, world: World): (State, FlushResult) {
    var (t1, begun) := Begin(t, k, records, force, world.build(t.log, EventsFor(t, k, records)));
    match begun
    case Finished(result) => (t1, result)
    case Flying(flight) =>
      var (t2, end) := WriteAll(t1, flight, world);
      Finish(t2, end)
  }

  function Terminals(records: seq<Record>): seq<Record> {
    if |records| == 0 then []
    else (if records[0].terminal then [records[0]] else []) + Terminals(records[1..])
  }

  /** `#flush`: a terminal record goes back to the buffer when no write began. */
  ghost function Flush(t: State, a: Active, force: bool, world: World): (State, Active) {
    if !force && |a.records| == 0 then (t, a)
    else
      var (t', result) := FlushAll(t, KeyOf(a.reducer.coordinates), a.records, force, world);
      var retained := if result.NotStarted? then Terminals(a.records) else [];
      (t', a.(records := retained, bytes := RuntimeBytes.RecordBytes(retained)))
  }

  // ----- appending -----

  function FirstOversized(reduced: seq<PiRecord>, world: World): Option<PiRecord> {
    if |reduced| == 0 then None
    else if world.size(reduced[0]).None? then Some(reduced[0])
    else FirstOversized(reduced[1..], world)
  }

  function Normal(k: Key, reduced: seq<PiRecord>, world: World): seq<Record>
    decreases |reduced|
  {
    if |reduced| == 0 then []
    else
      var r := reduced[0];
      [Record(k, r.eventID, if world.size(r).Some? then world.size(r).value else 0, r.body.SessionFinished?)]
        + Normal(k, reduced[1..], world)
  }

  /** The group to append: the records as normalized, or the first placeholder in place of them all. */
  function Group(k: Key, reduced: seq<PiRecord>, world: World): seq<Record> {
    var oversized := FirstOversized(reduced, world);
    if oversized.Some? then [Record(k, oversized.value.eventID, world.placeholder(oversized.value), false)]
    else Normal(k, reduced, world)
  }

  function TakeAll(t: State, group: seq<Record>): State
    decreases |group|
  {
    if |group| == 0 then t else TakeAll(t.Noting(Took(group[0])), group[1..])
  }

  /** `#append`. */
  ghost function Append(t: State, a: Active, reduced: seq<PiRecord>, world: World): (State, Active) {
    var group := Group(KeyOf(a.reducer.coordinates), reduced, world);
    var taken := TakeAll(t, group);
    var groupBytes := RuntimeBytes.RecordBytes(group);
    var (t1, a1) := if |a.records| > 0 && a.bytes + groupBytes > MAX_SESSION_BUFFER_BYTES
                    then Flush(taken, a, false, world) else (taken, a);
    (t1, a1.(records := a1.records + group, bytes := a1.bytes + groupBytes))
  }

  /** The reducer moves, and what it emits is appended. */
  ghost function Advance(t: State, a: Active, step: P.Step, world: World): (State, Active) {
    var reducer := P.Do(a.reducer, step);
    Append(t, a.(reducer := reducer), P.Output(a.reducer, reducer), world)
  }

  // ----- the callbacks -----

  /** What `session_start` brings: malformed, or a session and the discriminator generated for it, if any. */
  datatype StartInput = Malformed | Begins(sessionID: string, discriminator: Option<string>)

  datatype Step =
    | SessionStart(input: StartInput)
    | Observed(matches: bool, event: P.Event, flushBoundary: bool, closesWindow: bool)

  /** The window of a malformed or premature start is degraded and flushed. */
  ghost function DegradeAndFlush(e: Extension, reason: P.Reason, world: World): Extension {
    if e.active.None? then e
    else
      var (t, a) := Advance(e.transport, e.active.value, P.DoDegrade(reason), world);
      var (t', a') := Flush(t, a, false, world);
      Extension(Some(a'), t')
  }

  ghost function StartSession(e: Extension, input: StartInput, world: World): Extension {
    if input.Malformed? then DegradeAndFlush(e, P.MissingField, world)
    else
      var closed := DegradeAndFlush(e, P.InvalidTransition, world);
      if closed.active.Some? && |closed.active.value.records| > 0 then closed
      else if input.discriminator.None? then closed.(active := None)
      else
        var started := Active(P.Initial(P.Coordinates(input.sessionID, input.discriminator.value)), [], 0);
        var (t, a) := Flush(closed.transport, started, true, world);
        Extension(Some(a), t)
  }

  ghost function Observe(e: Extension, step: Step, world: World): Extension
    requires step.Observed?
  {
    if e.active.None? then e
    else
      var move := if step.matches then P.DoReduce(step.event) else P.DoDegrade(P.MissingField);
      var (t, a) := Advance(e.transport, e.active.value, move, world);
      var (t', a') := if step.flushBoundary then Flush(t, a, false, world) else (t, a);
      Extension(if step.closesWindow && a'.reducer.finished && |a'.records| == 0 then None else Some(a'), t')
  }

  ghost function Do(e: Extension, step: Step, world: World): Extension {
    match step
    case SessionStart(input) => StartSession(e, input, world)
    case Observed(_, _, _, _) => Observe(e, step, world)
  }
}
