/** The OpenCode plugin runtime. */
module CaptureRuntime {
  // Per-session buffers, at most one flush in flight per session and 64 in all,
  // deferred terminal records, and the transport.
  //
  // The functions here are the atomic steps between awaits; a run is any
  // interleaving of them.

  import opened Util
  import opened Contracts
  import opened Transport
  import CanonicalJson
  import Chunks

  const MAX_SESSION_BUFFER_BYTES: nat := 512 * 1024
  const MAX_TOTAL_RETAINED_BYTES: nat := 16 * 1024 * 1024
  const MAX_PENDING_FLUSH_SESSIONS: nat := 64
  const MAX_POST_PENDING_GAP_CHECKS: nat := 256
  const MAX_DEFERRED_TERMINAL_SESSIONS: nat := 256
  const MAX_TERMINAL_RESERVE_BYTES: nat := MAX_DEFERRED_TERMINAL_SESSIONS * MAX_CAPTURE_EVENT_BYTES

  datatype Buffer = Buffer(records: seq<Record>, bytes: nat)

  /** How far a flush that left its buffer has come. */
  datatype Stage = Queued | Writing(flight: Flight) | Settled(result: FlushResult)

  /** What the callbacks of a pending flush hold on to. */
  datatype Flush = Flush(records: seq<Record>, bytes: nat, stage: Stage)

  datatype Runtime = Runtime(
    buffers: map<Key, Buffer>,
    inFlight: map<Key, Flush>,
    postPending: set<Key>,
    deferred: seq<Key>,
    retained: int,
    transport: State)

  function TerminalOf(records: seq<Record>): (t: Option<Record>)
    ensures t.Some? ==> t.value in records && t.value.terminal
    ensures t.None? <==> forall r <- records :: !r.terminal
  {
    if |records| == 0 then None
    else if records[|records| - 1].terminal then Some(records[|records| - 1])
    else TerminalOf(records[..|records| - 1])
  }

  function BufferedRecords(r: Runtime, k: Key): seq<Record> {
    if k in r.buffers then r.buffers[k].records else []
  }

  function Mark(r: Runtime, k: Key): Runtime {
    r.(transport := MarkGap(r.transport, k))
  }

  function RetainOnlyTerminal(r: Runtime, k: Key): Runtime
    requires k in r.buffers
  {
    var b := r.buffers[k];
    var terminal := TerminalOf(b.records);
    if terminal.None? then
      r.(buffers := r.buffers - {k}, retained := r.retained - b.bytes)
    else
      r.(buffers := r.buffers[k := Buffer([terminal.value], terminal.value.bytes)],
         retained := r.retained - b.bytes + terminal.value.bytes)
  }

  function Push(r: Runtime, k: Key, record: Record, onto: Buffer): Runtime {
    r.(buffers := r.buffers[k := Buffer(onto.records + [record], onto.bytes + record.bytes)],
       retained := r.retained + record.bytes)
  }

  function DropBuffer(r: Runtime, k: Key): Runtime
    requires k in r.buffers
  {
    r.(buffers := r.buffers - {k}, retained := r.retained - r.buffers[k].bytes)
  }

  predicate Overfull(r: Runtime, k: Key, bytes: nat) {
    |BufferedRecords(r, k)| > 0 && r.buffers[k].bytes + bytes > MAX_SESSION_BUFFER_BYTES
  }

  function RestoreTerminal(r: Runtime, k: Key, terminal: Record): (Runtime, bool) {
    if TerminalOf(BufferedRecords(r, k)).Some? then (r, true)
    else
      var r1 := if Overfull(r, k, terminal.bytes) then Mark(DropBuffer(r, k), k) else r;
      if r1.retained + terminal.bytes > MAX_TOTAL_RETAINED_BYTES + MAX_TERMINAL_RESERVE_BYTES then
        (Mark(r1, k), false)
      else
        (Push(r1, k, terminal, if k in r1.buffers then r1.buffers[k] else Buffer([], 0)), true)
  }

  function DeferTerminal(r: Runtime, k: Key): Runtime {
    if k !in r.deferred && |r.deferred| < MAX_DEFERRED_TERMINAL_SESSIONS
    then r.(deferred := r.deferred + [k]) else r
  }

  function CheckAfterPending(r: Runtime, k: Key, hasTerminal: bool): Runtime {
    if k in r.postPending || |r.postPending| < MAX_POST_PENDING_GAP_CHECKS
    then r.(postPending := r.postPending + {k})
    else if hasTerminal then DeferTerminal(r, k) else r
  }

  function StartFlush(r: Runtime, k: Key): Runtime {
    var records := BufferedRecords(r, k);
    r.(buffers := if |records| > 0 then r.buffers - {k} else r.buffers,
       inFlight := r.inFlight[k := Flush(records, if k in r.buffers then r.buffers[k].bytes else 0, Queued)])
  }

  /** The synchronous part of `#scheduleFlush`. */
  function ScheduleFlush(r: Runtime, k: Key, force: bool): Runtime {
    var records := BufferedRecords(r, k);
    var hasRecords := |records| > 0;
    var terminal := TerminalOf(records);
    if !hasRecords && !force then r
    else if k !in r.inFlight && |r.inFlight| >= MAX_PENDING_FLUSH_SESSIONS then
      if hasRecords then
        var r1 := Mark(RetainOnlyTerminal(r, k), k);
        if terminal.Some? then DeferTerminal(r1, k) else r1
      else r
    else if k in r.inFlight then
      var r1 := if hasRecords then Mark(RetainOnlyTerminal(r, k), k) else r;
      if !hasRecords || terminal.Some? then CheckAfterPending(r1, k, terminal.Some?) else r1
    else StartFlush(r, k)
  }

  /** The first deferred session, in insertion order, without a pending flush. */
  function FirstDeferred(deferred: seq<Key>, pending: set<Key>): Option<Key> {
    if |deferred| == 0 then None
    else if deferred[0] in pending then FirstDeferred(deferred[1..], pending)
    else Some(deferred[0])
  }

  predicate AwaitsTerminalFlush(r: Runtime, k: Key) {
    k in r.buffers && k !in r.inFlight && TerminalOf(r.buffers[k].records).Some?
  }

  /** `pick` is the buffer the fallback loop finds: any eligible one, None when there is none. */
  ghost predicate PickOk(r: Runtime, pick: Option<Key>) {
    if pick.Some? then AwaitsTerminalFlush(r, pick.value)
    else forall k :: !AwaitsTerminalFlush(r, k)
  }

  function ScheduleOneDeferred(r: Runtime, pick: Option<Key>): Runtime {
    var first := FirstDeferred(r.deferred, r.inFlight.Keys);
    if first.Some? then ScheduleFlush(r.(deferred := Without(r.deferred, first.value)), first.value, true)
    else if pick.Some? then ScheduleFlush(r, pick.value, true)
    else r
  }

  /** One turn of the loop of `#appendRecords`. */
  function Append(r: Runtime, record: Record): Runtime {
    var k := record.key;
    var r0 := r.(transport := r.transport.Noting(Took(record)));
    var overfull := Overfull(r0, k, record.bytes);
    var r1 := if overfull then ScheduleFlush(r0, k, false) else r0;
    Admit(r1, record, if !overfull && k in r1.buffers then r1.buffers[k] else Buffer([], 0))
  }

  /** A record past the limit is only marked; a terminal past the ordinary limit is marked and kept. */
  function Admit(r: Runtime, record: Record, buffer: Buffer): Runtime {
    var limit := if record.terminal then MAX_TOTAL_RETAINED_BYTES + MAX_TERMINAL_RESERVE_BYTES else MAX_TOTAL_RETAINED_BYTES;
    if r.retained + record.bytes > limit then Mark(r, record.key)
    else
      var marked := if record.terminal && r.retained + record.bytes > MAX_TOTAL_RETAINED_BYTES then Mark(r, record.key) else r;
      Push(marked, record.key, record, buffer)
  }

  /** `#appendRecords`: the records of one event, one after the other. */
  function AppendAll(r: Runtime, records: seq<Record>): Runtime
    decreases |records|
  {
    if |records| == 0 then r else AppendAll(Append(r, records[0]), records[1..])
  }

  // ----- the steps of a flush in flight -----

  function SetStage(r: Runtime, k: Key, stage: Stage, t: State): Runtime
    requires k in r.inFlight
  {
    r.(inFlight := r.inFlight[k := r.inFlight[k].(stage := stage)], transport := t)
  }

  ghost function BeginFlush(r: Runtime, k: Key, build: Option<seq<seq<Event>>>): Runtime
    requires k in r.inFlight
  {
    var (t, begun) := Begin(r.transport, k, r.inFlight[k].records, false, build);
    SetStage(r, k, if begun.Flying? then Writing(begun.flight) else Settled(begun.result), t)
  }

  function StartChunk(r: Runtime, k: Key): Runtime
    requires k in r.inFlight && r.inFlight[k].stage.Writing?
    requires var f := r.inFlight[k].stage.flight; f.next < |f.chunks| && !f.writing
  {
    var (t, f) := StartWrite(r.transport, r.inFlight[k].stage.flight);
    SetStage(r, k, Writing(f), t)
  }

  function SettleChunk(r: Runtime, k: Key, ok: bool): Runtime
    requires k in r.inFlight && r.inFlight[k].stage.Writing?
    requires var f := r.inFlight[k].stage.flight; f.writing && f.next < |f.chunks| && r.transport.active > 0
  {
    var (t, f) := SettleWrite(r.transport, r.inFlight[k].stage.flight, ok);
    SetStage(r, k, Writing(f), t)
  }

  function FinishFlush(r: Runtime, k: Key): Runtime
    requires k in r.inFlight && r.inFlight[k].stage.Writing?
    requires var f := r.inFlight[k].stage.flight; f.next == |f.chunks| && !f.writing
  {
    var (t, result) := Finish(r.transport, r.inFlight[k].stage.flight);
    SetStage(r, k, Settled(result), t)
  }

  /** A terminal record whose flush handed nothing over goes back to the buffer and is deferred. */
  function RestoreUnsent(r: Runtime, k: Key, f: Flush): Runtime
    requires f.stage.Settled?
  {
    var terminal := TerminalOf(f.records);
    if terminal.Some? && f.stage.result.NotStarted? then
      var (restored, ok) := RestoreTerminal(r, k, terminal.value);
      if ok then DeferTerminal(restored, k) else restored
    else r
  }

  /** The first half of the completion callback: bytes released, an unsent terminal restored, the entry removed. */
  function Release(r: Runtime, k: Key): Runtime
    requires k in r.inFlight && r.inFlight[k].stage.Settled?
  {
    var f := r.inFlight[k];
    var r1 := if |f.records| > 0 then r.(retained := r.retained - f.bytes) else r;
    var r2 := RestoreUnsent(r1, k, f);
    r2.(inFlight := r2.inFlight - {k})
  }

  /** The completion callback of a flush. */
  function Complete(r: Runtime, k: Key, pick: Option<Key>): Runtime
    requires k in r.inFlight && r.inFlight[k].stage.Settled?
  {
    var released := Release(r, k);
    if k in released.postPending then
      ScheduleFlush(released.(postPending := released.postPending - {k}), k, true)
    else if r.inFlight[k].stage.result.FullyDelivered? then
      ScheduleOneDeferred(released, pick)
    else released
  }

  // ----- runs -----

  datatype Step =
    | DoAppend(record: Record)
    | DoSchedule(key: Key, force: bool)
    | DoBegin(key: Key, build: Option<seq<seq<Event>>>)
    | DoStartChunk(key: Key)
    | DoSettleChunk(key: Key, ok: bool)
    | DoFinish(key: Key)
    | DoComplete(key: Key, pick: Option<Key>)
  {
    /** Steps the runtime takes without a new provider event. */
    predicate Internal() {
      !DoAppend? && !DoSchedule?
    }
  }

  /** The size of the placeholder that stands for a record too large to be captured. */
  function PlaceholderBytes(sessionID: string): nat {
    CanonicalJson.CostOf(Chunks.Oversize(sessionID)).bytes
  }

  /** Records arrive normalized: within the event limit, or replaced by a placeholder, which is no terminal. */
  predicate Normalized(record: Record) {
    record.bytes <= MAX_CAPTURE_EVENT_BYTES || (!record.terminal && record.bytes == PlaceholderBytes(record.key.sessionID))
  }

  ghost predicate Enabled(r: Runtime, step: Step) {
    match step
    case DoAppend(record) => record !in Taken(r.transport.log) && Normalized(record)
    case DoSchedule(_, _) => true
    case DoBegin(k, build) =>
      && k in r.inFlight && r.inFlight[k].stage.Queued?
      && (build.Some? ==> ValidBuild(EventsFor(r.transport, k, r.inFlight[k].records), build.value))
    case DoStartChunk(k) =>
      && k in r.inFlight && r.inFlight[k].stage.Writing?
      && var f := r.inFlight[k].stage.flight; f.next < |f.chunks| && !f.writing
    case DoSettleChunk(k, _) =>
      && k in r.inFlight && r.inFlight[k].stage.Writing? && r.transport.active > 0
      && var f := r.inFlight[k].stage.flight; f.writing && f.next < |f.chunks|
    case DoFinish(k) =>
      && k in r.inFlight && r.inFlight[k].stage.Writing?
      && var f := r.inFlight[k].stage.flight; f.next == |f.chunks| && !f.writing
    case DoComplete(k, pick) =>
      && k in r.inFlight && r.inFlight[k].stage.Settled?
      && PickOk(Release(r, k), pick)
  }

  ghost function Do(r: Runtime, step: Step): Runtime
    requires Enabled(r, step)
  {
    match step
    case DoAppend(record) => Append(r, record)
    case DoSchedule(k, force) => ScheduleFlush(r, k, force)
    case DoBegin(k, build) => BeginFlush(r, k, build)
    case DoStartChunk(k) => StartChunk(r, k)
    case DoSettleChunk(k, ok) => SettleChunk(r, k, ok)
    case DoFinish(k) => FinishFlush(r, k)
    case DoComplete(k, pick) => Complete(r, k, pick)
  }

  const INITIAL := Runtime(map[], map[], {}, [], 0, State(Drop, map[], 0, false, 0, Start))

  ghost predicate IsRun(start: Runtime, steps: seq<Step>)
    decreases |steps|
  {
    |steps| > 0 ==> Enabled(start, steps[0]) && IsRun(Do(start, steps[0]), steps[1..])
  }

  ghost function After(start: Runtime, steps: seq<Step>): Runtime
    requires IsRun(start, steps)
    decreases |steps|
  {
    if |steps| == 0 then start else After(Do(start, steps[0]), steps[1..])
  }

  lemma {:induction false} RunSnoc(start: Runtime, steps: seq<Step>, step: Step)
    requires IsRun(start, steps) && Enabled(After(start, steps), step)
    ensures IsRun(start, steps + [step]) && After(start, steps + [step]) == Do(After(start, steps), step)
    decreases |steps|
  {
    hide Enabled, Do;
    if |steps| == 0 {
      assert steps + [step] == [step];
    } else {
      RunSnoc(Do(start, steps[0]), steps[1..], step);
      assert (steps + [step])[1..] == steps[1..] + [step];
    }
  }

  ghost predicate Reachable(r: Runtime) {
    exists steps :: IsRun(INITIAL, steps) && After(INITIAL, steps) == r
  }

  lemma InitialReachable()
    ensures Reachable(INITIAL)
  {
    var none: seq<Step> := [];
    assert IsRun(INITIAL, none) && After(INITIAL, none) == INITIAL;
  }

  lemma ReachStep(r: Runtime, step: Step)
    requires Reachable(r) && Enabled(r, step)
    ensures Reachable(Do(r, step))
  {
    hide Enabled, Do, IsRun, After;
    var steps :| IsRun(INITIAL, steps) && After(INITIAL, steps) == r;
    RunSnoc(INITIAL, steps, step);
  }

  // ----- what the history says -----

  function Taken(h: History): set<Record> {
    match h
    case Start => {}
    case Then(past, Took(record)) => Taken(past) + {record}
    case Then(past, _) => Taken(past)
  }

  /** Records taken in, and since then neither part of a full delivery nor followed by a gap mark of their session. */
  function Unaccounted(h: History): set<Record> {
    match h
    case Start => {}
    case Then(past, Took(record)) => Unaccounted(past) + {record}
    case Then(past, Marked(k)) => set r | r in Unaccounted(past) && r.key != k
    case Then(past, Delivered(records, _)) => set r | r in Unaccounted(past) && r !in records
    case Then(past, _) => Unaccounted(past)
  }

  function HandedRecords(h: History): set<Record> {
    match h
    case Start => {}
    case Then(past, Handed(events)) => HandedRecords(past) + RecordsIn(events)
    case Then(past, _) => HandedRecords(past)
  }

  /** Records in chunks whose launcher reported success. */
  function ConfirmedRecords(h: History): set<Record> {
    match h
    case Start => {}
    case Then(past, Confirmed(events)) => ConfirmedRecords(past) + RecordsIn(events)
    case Then(past, _) => ConfirmedRecords(past)
  }

  function RecordsIn(events: seq<Event>): set<Record> {
    set e | e in events && e.Payload? :: e.record
  }

  /** No record was ever given to a launcher twice, in one write or in two. */
  ghost predicate HandedOnce(h: History) {
    match h
    case Start => true
    case Then(past, Handed(events)) =>
      HandedOnce(past) && RecordsIn(events) !! HandedRecords(past) && DistinctPayloads(events)
    case Then(past, _) => HandedOnce(past)
  }

  /** A delivery is only claimed of records whose chunks were all confirmed. */
  ghost predicate DeliveriesConfirmed(h: History) {
    match h
    case Start => true
    case Then(past, Delivered(records, _)) => DeliveriesConfirmed(past) && (set x <- records) <= ConfirmedRecords(past)
    case Then(past, _) => DeliveriesConfirmed(past)
  }

  ghost predicate DistinctPayloads(events: seq<Event>) {
    forall i, j | 0 <= i < j < |events| :: events[i] == events[j] ==> events[i].GapNotice?
  }
}
