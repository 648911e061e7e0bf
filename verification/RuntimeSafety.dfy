/**
 * Over every run of the plugin runtime, in any interleaving: no record is lost
 * without a gap mark, and no record is given to a launcher twice.
 *
 * One lemma for each kind of step: an append, the beginning of a flush, a chunk
 * given a permit, a chunk settled, the end of the writes, and the completion.
 * A flush in flight carries its own account of which of its records have been
 * handed over and which are still to come, so the steps of different flushes
 * commute; only the completion brings records back to the buffers.
 */
module RuntimeSafety {
  import opened Util
  import opened Transport
  import opened CaptureRuntime
  import opened RuntimeHistory
  import opened RuntimeTables

  ghost predicate Fresh(r: Runtime, x: Record, k: Key) {
    Belongs(x, k, r.transport.log) && x !in HandedRecords(r.transport.log) && !HeldBy(r, x)
  }

  // ----- completing a flush -----

  lemma RestoreOk(r: Runtime, k: Key, terminal: Record)
    requires CoreOk(r) && HeldBut(r, None, None) && Fresh(r, terminal, k)
    ensures var r' := RestoreTerminal(r, k, terminal).0; CoreOk(r') && HeldBut(r', None, None)
  {
    hide CoreOk, HeldBut, HeldBy, MarkGap, TerminalOf, DropBuffer, Push, Taken, HandedRecords, Unaccounted, LogOk, ConfirmedRecords, StateOk;
    if TerminalOf(BufferedRecords(r, k)).None? {
      var overfull := Overfull(r, k, terminal.bytes);
      if overfull {
        DropMarked(r, k, None);
        DroppedIsGone(r, k);
      }
      var r1 := if overfull then Mark(DropBuffer(r, k), k) else r;
      MarkOnly(r1, k, None);
      PushOk(r1, terminal, if k in r1.buffers then r1.buffers[k] else Buffer([], 0), None);
    }
  }

  lemma DroppedIsGone(r: Runtime, k: Key)
    requires k in r.buffers
    ensures k !in Mark(DropBuffer(r, k), k).buffers
  {
  }

  lemma RemoveFlight(r: Runtime, k: Key)
    requires HistoryOk(r) && k in r.inFlight && r.inFlight[k].stage.Settled?
    ensures HistoryOk(r.(inFlight := r.inFlight - {k}))
  {
    hide HandedRecords, Taken, Unaccounted, LogOk, ConfirmedRecords, StateOk, BufferOk, Apart;
    var r' := r.(inFlight := r.inFlight - {k});
    assert WritingKeys(r'.inFlight) == WritingKeys(r.inFlight);
  }

  lemma RestoreTerminalCommutes(r: Runtime, k: Key, terminal: Record, inFlight: map<Key, Flush>)
    ensures var (restored, ok) := RestoreTerminal(r, k, terminal);
            RestoreTerminal(r.(inFlight := inFlight), k, terminal) == (restored.(inFlight := inFlight), ok)
  {
    hide TerminalOf, MarkGap;
    assert forall r: Runtime :: Mark(r.(inFlight := inFlight), k) == Mark(r, k).(inFlight := inFlight);
  }

  lemma RestoreCommutes(r: Runtime, k: Key, f: Flush, inFlight: map<Key, Flush>)
    requires f.stage.Settled?
    ensures RestoreUnsent(r, k, f).(inFlight := inFlight) == RestoreUnsent(r.(inFlight := inFlight), k, f)
  {
    hide TerminalOf, RestoreTerminal;
    if TerminalOf(f.records).Some? {
      RestoreTerminalCommutes(r, k, TerminalOf(f.records).value, inFlight);
    }
  }

  /** A terminal about to be restored was never handed over and is held nowhere else. */
  lemma UnsentTerminalIsFresh(r: Runtime, k: Key)
    requires CoreOk(r) && k in r.inFlight && r.inFlight[k].stage == Settled(NotStarted)
    ensures forall x <- r.inFlight[k].records :: Fresh(r.(inFlight := r.inFlight - {k}), x, k)
  {
    hide HandedRecords, Taken, Unaccounted, TransportOk;
    CoreBuffer(r, k);
  }

  lemma ReleaseOk(r: Runtime, k: Key)
    requires HistoryOk(r) && k in r.inFlight && r.inFlight[k].stage.Settled?
    ensures HistoryOk(Release(r, k))
  {
    hide CoreOk, HeldBut, Fresh, MarkGap, TerminalOf, RestoreTerminal, DeferTerminal;
    var f := r.inFlight[k];
    var r1 := if |f.records| > 0 then r.(retained := r.retained - f.bytes) else r;
    TablesDecide(r, r1);
    RemoveFlight(r1, k);
    var r2 := r1.(inFlight := r1.inFlight - {k});
    RestoreCommutes(r1, k, f, r2.inFlight);
    RestoreKeepsFlights(r1, k, f);
    var terminal := TerminalOf(f.records);
    if terminal.Some? && f.stage.result.NotStarted? {
      UnsentTerminalIsFresh(r1, k);
      RestoreOk(r2, k, terminal.value);
      CheckTables(RestoreTerminal(r2, k, terminal.value).0, k, false, None);
    }
  }

  lemma RestoreKeepsFlights(r: Runtime, k: Key, f: Flush)
    requires f.stage.Settled?
    ensures RestoreUnsent(r, k, f).inFlight == r.inFlight
  {
    hide TerminalOf, MarkGap;
  }

  lemma CompleteOk(r: Runtime, k: Key, pick: Option<Key>)
    requires HistoryOk(r) && Enabled(r, DoComplete(k, pick))
    ensures HistoryOk(Complete(r, k, pick))
  {
    hide CoreOk, HeldBut, Release, ScheduleFlush, FirstDeferred, Without, PickOk, OnlyInFlight, HeldBy, Onward, BufferedRecords;
    ReleaseOk(r, k);
    var released := Release(r, k);
    if k in released.postPending {
      var checked := released.(postPending := released.postPending - {k});
      TablesDecide(released, checked);
      ScheduleOk(checked, k, true, None);
    } else {
      var first := FirstDeferred(released.deferred, released.inFlight.Keys);
      if first.Some? {
        var taken := released.(deferred := Without(released.deferred, first.value));
        TablesDecide(released, taken);
        ScheduleOk(taken, first.value, true, None);
      } else if pick.Some? {
        ScheduleOk(released, pick.value, true, None);
      }
    }
  }

  // ----- taking a record in -----

  lemma TakeFlushOk(k: Key, f: Flush, t: State, x: Record)
    requires FlushOk(k, f, t) && x !in Taken(t.log)
    ensures FlushOk(k, f, t.Noting(Took(x)))
  {
    hide FlightFits, Unsent, Distinct;
    assert t.Noting(Took(x)).log == Then(t.log, Took(x));
  }

  lemma TakeBufferOk(k: Key, b: Buffer, h: History, x: Record)
    requires BufferOk(k, b, h)
    ensures BufferOk(k, b, Then(h, Took(x)))
  {
    hide Distinct;
  }

  lemma TakeTransportOk(r: Runtime, x: Record)
    requires TransportOk(r)
    ensures TransportOk(r.(transport := r.transport.Noting(Took(x))))
  {
    hide WritingKeys;
    assert r.transport.Noting(Took(x)).log == Then(r.transport.log, Took(x));
  }

  lemma TakeTablesOk(r: Runtime, x: Record)
    requires TablesOk(r) && x !in Taken(r.transport.log)
    ensures TablesOk(r.(transport := r.transport.Noting(Took(x))))
  {
    hide FlushOk, BufferOk, Apart, Taken;
    var t := r.transport.Noting(Took(x));
    forall k <- r.buffers
      ensures BufferOk(k, r.buffers[k], t.log)
    {
      TakeBufferOk(k, r.buffers[k], r.transport.log, x);
    }
    forall k <- r.inFlight
      ensures FlushOk(k, r.inFlight[k], t)
    {
      TakeFlushOk(k, r.inFlight[k], r.transport, x);
    }
  }

  lemma TakeOk(r: Runtime, x: Record)
    requires HistoryOk(r) && x !in Taken(r.transport.log)
    ensures var r0 := r.(transport := r.transport.Noting(Took(x)));
            CoreOk(r0) && HeldBut(r0, Some(x), None) && Fresh(r0, x, x.key)
  {
    hide TablesOk, StateOk, LogOk, ConfirmedRecords, WritingKeys;
    assert r.transport.Noting(Took(x)).log == Then(r.transport.log, Took(x));
    NotYetHeld(r, x);
    TakeTransportOk(r, x);
    TakeTablesOk(r, x);
  }

  lemma NotYetHeld(r: Runtime, x: Record)
    requires CoreOk(r) && x !in Taken(r.transport.log)
    ensures !HeldBy(r, x)
  {
    hide TransportOk, Taken, FlightFits, Unsent, Unaccounted, HandedRecords;
    CoreBuffer(r, x.key);
  }

  lemma AppendOk(r: Runtime, x: Record)
    requires HistoryOk(r) && x !in Taken(r.transport.log)
    ensures HistoryOk(Append(r, x))
  {
    hide CoreOk, HeldBut, HeldBy, ScheduleFlush, MarkGap, Push, TerminalOf, Taken, HandedRecords, Unaccounted, LogOk, ConfirmedRecords, StateOk, OnlyInFlight, NothingOwed;
    var k := x.key;
    TakeOk(r, x);
    var r0 := r.(transport := r.transport.Noting(Took(x)));
    var overfull := Overfull(r0, k, x.bytes);
    var r1 := if overfull then ScheduleFlush(r0, k, false) else r0;
    ScheduleOk(r0, k, false, Some(x));
    assert CoreOk(r1) && HeldBut(r1, Some(x), None) && Fresh(r1, x, k);
    MarkOnly(r1, k, Some(x));
    MarkedHoldsSame(r1, k);
    OwedAfterMark(r1, k, Some(x));
    PushBoth(r1, x, if !overfull && k in r1.buffers then r1.buffers[k] else Buffer([], 0));
  }

  lemma MarkedHoldsSame(r: Runtime, k: Key)
    ensures forall x :: HeldBy(Mark(r, k), x) <==> HeldBy(r, x)
    ensures Mark(r, k).buffers == r.buffers
  {
  }

  lemma OwedAfterMark(r: Runtime, k: Key, record: Option<Record>)
    requires NothingOwed(Mark(r, k), k) && HeldBut(Mark(r, k), record, None)
    requires record.Some? ==> record.value.key == k
    ensures HeldBut(Mark(r, k), None, None) && OnlyInFlight(Mark(r, k), k, record)
  {
  }

  /** The record taken in is pushed, with or without the gap mark of the terminal reserve. */
  lemma PushBoth(r: Runtime, x: Record, onto: Buffer)
    requires CoreOk(r) && HeldBut(r, Some(x), None) && Fresh(r, x, x.key)
    requires if x.key in r.buffers && onto == r.buffers[x.key] then true
             else |onto.records| == 0 && (x.key in r.buffers ==> OnlyInFlight(r, x.key, Some(x)))
    ensures HistoryOk(Push(r, x.key, x, onto)) && HistoryOk(Push(Mark(r, x.key), x.key, x, onto))
  {
    hide CoreOk, HeldBut, HeldBy, MarkGap, Push, Taken, HandedRecords, Unaccounted, LogOk, ConfirmedRecords, StateOk, OnlyInFlight, NothingOwed;
    PushOk(r, x, onto, Some(x));
    MarkOnly(r, x.key, Some(x));
    MarkedHoldsSame(r, x.key);
    OwedAfterMark(r, x.key, Some(x));
    PushOk(Mark(r, x.key), x, onto, Some(x));
  }

  // ----- the steps of a flush -----

  lemma UnsentInRecords(k: Key, f: Flush, t: State)
    requires FlushOk(k, f, t)
    ensures Unsent(f) <= (set x <- f.records)
  {
    hide DistinctPayloads, HandedRecords, Taken, Unaccounted;
    if f.stage.Writing? {
      var flight := f.stage.flight;
      LaterDistinct(flight.chunks, if flight.writing then flight.next + 1 else flight.next);
      RecordsFromFlatten(flight.chunks, 0);
    }
  }

  lemma WritingCount(inFlight: map<Key, Flush>, k: Key, f: Flush)
    requires k in inFlight
    ensures |WritingKeys(inFlight[k := f])| + Writes(inFlight[k]) == |WritingKeys(inFlight)| + Writes(f)
  {
    hide InWrite;
    CountWithout(WritingKeys(inFlight), k);
    CountWithout(WritingKeys(inFlight[k := f]), k);
    assert WritingKeys(inFlight) - {k} == WritingKeys(inFlight[k := f]) - {k};
  }

  lemma CountWithout(keys: set<Key>, k: Key)
    ensures |keys| == |keys - {k}| + if k in keys then 1 else 0
  {
    assert if k in keys then keys == (keys - {k}) + {k} else keys == keys - {k};
  }

  function Writes(f: Flush): nat {
    if InWrite(f) then 1 else 0
  }

  /** What one flush may do to the transport: hand over records of its own, mark, deliver. */
  ghost predicate OwnStep(t: State, t': State, own: seq<Record>) {
    && StateOk(t') && t'.generation >= t.generation
    && Taken(t'.log) == Taken(t.log) && Unaccounted(t'.log) <= Unaccounted(t.log)
    && HandedRecords(t'.log) <= HandedRecords(t.log) + (set x <- own)
    && LogOk(t'.log)
    && ConfirmedRecords(t.log) <= ConfirmedRecords(t'.log)
  }

  lemma OtherFlushOk(j: Key, g: Flush, k: Key, own: seq<Record>, t: State, t': State)
    requires FlushOk(j, g, t) && j != k && OwnStep(t, t', own)
    requires forall x <- own :: x.key == k
    ensures FlushOk(j, g, t')
  {
    hide Unsent, HandedRecords, Taken, Unaccounted, LogOk, ConfirmedRecords, StateOk, ValidBuild, DistinctPayloads;
    UnsentInRecords(j, g, t);
  }

  lemma OwnTables(r: Runtime, k: Key, stage: Stage, t: State)
    requires CoreOk(r) && k in r.inFlight
    requires OwnStep(r.transport, t, r.inFlight[k].records)
    requires FlushOk(k, r.inFlight[k].(stage := stage), t)
    ensures TablesOk(SetStage(r, k, stage, t))
  {
    hide Unsent, HandedRecords, Taken, Unaccounted, LogOk, ConfirmedRecords, FlightFits, TransportOk, StateOk;
    var own := r.inFlight[k].records;
    var r' := SetStage(r, k, stage, t);
    forall j <- r'.inFlight
      ensures FlushOk(j, r'.inFlight[j], t)
    {
      if j != k {
        OtherFlushOk(j, r.inFlight[j], k, own, r.transport, t);
      }
    }
    forall j <- r'.buffers
      ensures BufferOk(j, r'.buffers[j], t.log)
      ensures j in r'.inFlight ==> Apart(r'.buffers[j], r'.inFlight[j])
    {
      CoreBuffer(r, j);
    }
  }

  lemma StageOk(r: Runtime, k: Key, stage: Stage, t: State)
    requires HistoryOk(r) && k in r.inFlight
    requires OwnStep(r.transport, t, r.inFlight[k].records)
    requires FlushOk(k, r.inFlight[k].(stage := stage), t)
    requires t.active + Writes(r.inFlight[k]) == r.transport.active + Writes(r.inFlight[k].(stage := stage))
    requires t.active <= MAX_CONCURRENT_WRITES
    ensures HistoryOk(SetStage(r, k, stage, t))
  {
    hide HandedRecords, Taken, Unaccounted, LogOk, ConfirmedRecords, StateOk, FlushOk, BufferOk, Apart, WritingKeys, Writes;
    WritingCount(r.inFlight, k, r.inFlight[k].(stage := stage));
    OwnTables(r, k, stage, t);
    OwnRecordsTaken(k, r.inFlight[k], r.transport);
  }

  lemma OwnRecordsTaken(k: Key, f: Flush, t: State)
    requires FlushOk(k, f, t)
    ensures (set x <- f.records) <= Taken(t.log)
  {
    hide Taken, HandedRecords, Unaccounted, FlightFits, Unsent;
  }

  lemma MarkOwnStep(t: State, k: Key, own: seq<Record>)
    requires StateOk(t) && LogOk(t.log)
    ensures OwnStep(t, MarkGap(t, k), own) && MarkGap(t, k).active == t.active
    ensures forall x <- Unaccounted(MarkGap(t, k).log) :: x.key != k
  {
    hide MarkGap, StateOk, Unaccounted, Taken, HandedRecords, LogOk, ConfirmedRecords;
    MarkOnward(t, k);
  }

  /** A flush that gave up, was refused every permit, or had nothing to say leaves nothing of its own owed. */
  lemma SettledOk(k: Key, f: Flush, result: FlushResult, t: State, t': State)
    requires FlushOk(k, f, t) && OwnStep(t, t', [])
    requires forall x <- f.records :: x !in Unaccounted(t'.log)
    requires result.NotStarted? ==> Unsent(f) == (set x <- f.records)
    ensures FlushOk(k, f.(stage := Settled(result)), t')
  {
    hide HandedRecords, Taken, Unaccounted, LogOk, ConfirmedRecords, StateOk, FlightFits, Distinct;
  }

  lemma BeginStepOk(r: Runtime, k: Key, build: Option<seq<seq<Event>>>)
    requires HistoryOk(r) && Enabled(r, DoBegin(k, build))
    ensures HistoryOk(BeginFlush(r, k, build))
  {
    hide MarkGap, Taken, HandedRecords, Unaccounted, LogOk, ConfirmedRecords, StateOk, OwnStep, CoreOk, HeldBut, FlushOk, ValidBuild;
    CoreBuffer(r, k);
    TransportParts(r);
    var f := r.inFlight[k];
    MarkOwnStep(r.transport, k, []);
    MarkOwnStep(r.transport, k, f.records);
    StayOwnStep(r.transport, []);
    StayOwnStep(r.transport, f.records);
    OwnKeys(k, f, r.transport);
    BegunOk(k, f, r.transport, false, build);
    var (t, begun) := Begin(r.transport, k, f.records, false, build);
    if begun.Finished? {
      SettledOk(k, f, begun.result, r.transport, t);
      StageOk(r, k, Settled(begun.result), t);
    } else {
      StageOk(r, k, Writing(begun.flight), t);
    }
  }

  lemma TransportParts(r: Runtime)
    requires CoreOk(r)
    ensures StateOk(r.transport) && LogOk(r.transport.log) && r.transport.active <= MAX_CONCURRENT_WRITES
  {
  }

  lemma StayOwnStep(t: State, own: seq<Record>)
    requires StateOk(t) && LogOk(t.log)
    ensures OwnStep(t, t, own)
  {
  }

  lemma OwnKeys(k: Key, f: Flush, t: State)
    requires FlushOk(k, f, t)
    ensures forall x <- f.records :: x.key == k
  {
  }

  lemma BegunOk(k: Key, f: Flush, t: State, force: bool, build: Option<seq<seq<Event>>>)
    requires FlushOk(k, f, t) && f.stage.Queued? && StateOk(t)
    requires build.Some? ==> ValidBuild(EventsFor(t, k, f.records), build.value)
    ensures var (t', begun) := Begin(t, k, f.records, force, build);
            begun.Flying? ==> t' == t && FlushOk(k, f.(stage := Writing(begun.flight)), t') && !begun.flight.writing
  {
    hide MarkGap, Taken, HandedRecords, Unaccounted, ConfirmedRecords, FlattenFrom, DistinctPayloads, RecordsIn, FlightOk, EventsFor;
    BeginOk(t, k, f.records, force, build);
    EventsAreRecords(t, k, f.records);
    if build.Some? {
      RecordsFromFlatten(build.value, 0);
    }
  }

  lemma EventsAreRecords(t: State, k: Key, records: seq<Record>)
    requires Distinct(records)
    ensures RecordsIn(EventsFor(t, k, records)) == (set x <- records) && DistinctPayloads(EventsFor(t, k, records))
  {
    PayloadsDistinct(records, if k in t.pending || t.poisoned then [GapNotice(k)] else []);
  }

  lemma StartChunkOk(r: Runtime, k: Key)
    requires HistoryOk(r) && Enabled(r, DoStartChunk(k))
    ensures HistoryOk(StartChunk(r, k))
  {
    hide MarkGap, Taken, HandedRecords, Unaccounted, LogOk, ConfirmedRecords, StateOk, OwnStep, CoreOk, HeldBut, FlushOk, ValidBuild;
    CoreBuffer(r, k);
    TransportParts(r);
    var (t, f) := StartWrite(r.transport, r.inFlight[k].stage.flight);
    ChunkStarted(k, r.inFlight[k], r.transport);
    StageOk(r, k, Writing(f), t);
  }

  lemma ChunkStarted(k: Key, f: Flush, t: State)
    requires FlushOk(k, f, t) && StateOk(t) && LogOk(t.log)
    requires f.stage.Writing? && f.stage.flight.next < |f.stage.flight.chunks| && !f.stage.flight.writing
    ensures var (t', flight) := StartWrite(t, f.stage.flight);
            OwnStep(t, t', f.records) && FlushOk(k, f.(stage := Writing(flight)), t')
  {
    hide FlushOk, OwnStep, FlightFits, StateOk, LogOk, ConfirmedRecords;
    if t.active >= MAX_CONCURRENT_WRITES {
      ChunkSkipped(k, f, t);
      StayOwnStep(t, f.records);
    } else {
      ChunkHanded(k, f, t);
    }
  }

  /** A chunk refused a permit is skipped; its records can still be restored while nothing has started. */
  lemma ChunkSkipped(k: Key, f: Flush, t: State)
    requires FlushOk(k, f, t) && t.active >= MAX_CONCURRENT_WRITES
    requires f.stage.Writing? && f.stage.flight.next < |f.stage.flight.chunks| && !f.stage.flight.writing
    ensures FlushOk(k, f.(stage := Writing(StartWrite(t, f.stage.flight).1)), t)
  {
    hide Taken, Unaccounted, HandedRecords, LogOk, ConfirmedRecords, ValidBuild, DistinctPayloads, RecordsIn, StateOk, Distinct;
    var flight := f.stage.flight;
    assert RecordsFrom(flight.chunks, flight.next + 1) <= RecordsFrom(flight.chunks, flight.next);
  }

  /** Handing over records that were never handed over before. */
  lemma HandOver(t: State, events: seq<Event>, own: seq<Record>)
    requires StateOk(t) && LogOk(t.log) && DistinctPayloads(events)
    requires RecordsIn(events) <= (set x <- own) && RecordsIn(events) !! HandedRecords(t.log)
    ensures OwnStep(t, t.Noting(Handed(events)).(active := t.active + 1), own)
  {
    hide DistinctPayloads, RecordsIn, StateOk;
    assert t.Noting(Handed(events)).log == Then(t.log, Handed(events));
    StillOk(t, t.Noting(Handed(events)).(active := t.active + 1));
  }

  lemma StillOk(t: State, t': State)
    requires StateOk(t) && t' == t.(log := t'.log, active := t'.active)
    ensures StateOk(t')
  {
  }

  /** A chunk given to a launcher: its records were unsent, and no other chunk repeats them. */
  lemma ChunkHanded(k: Key, f: Flush, t: State)
    requires FlushOk(k, f, t) && StateOk(t) && LogOk(t.log) && t.active < MAX_CONCURRENT_WRITES
    requires f.stage.Writing? && f.stage.flight.next < |f.stage.flight.chunks| && !f.stage.flight.writing
    ensures var (t', flight) := StartWrite(t, f.stage.flight);
            OwnStep(t, t', f.records) && FlushOk(k, f.(stage := Writing(flight)), t')
  {
    hide FlightFits, DistinctPayloads, RecordsIn, RecordsFrom, StateOk, Distinct, OwnStep, Unsent, LogOk, ConfirmedRecords, FlightOk;
    var flight := f.stage.flight;
    NextChunk(k, f, flight, t.generation);
    HandOver(t, flight.chunks[flight.next], f.records);
    WritingFits(k, f, t.generation);
    var (t', after) := StartWrite(t, flight);
    assert t'.log == Then(t.log, Handed(flight.chunks[flight.next])) && after == flight.(writing := true);
    HandedTakesNothing(t.log, flight.chunks[flight.next]);
  }

  lemma WritingFits(k: Key, f: Flush, generation: nat)
    requires f.stage.Writing? && FlightFits(k, f, f.stage.flight, generation)
    requires f.stage.flight.next < |f.stage.flight.chunks|
    ensures var flight := f.stage.flight.(writing := true);
            && FlightFits(k, f.(stage := Writing(flight)), flight, generation)
            && Unsent(f.(stage := Writing(flight))) == RecordsFrom(flight.chunks, flight.next + 1)
  {
    hide ValidBuild, DistinctPayloads, RecordsIn, RecordsFrom;
  }

  lemma HandedTakesNothing(h: History, events: seq<Event>)
    ensures Taken(Then(h, Handed(events))) == Taken(h) && Unaccounted(Then(h, Handed(events))) == Unaccounted(h)
    ensures ConfirmedRecords(Then(h, Handed(events))) == ConfirmedRecords(h)
  {
  }

  lemma SettleChunkOk(r: Runtime, k: Key, ok: bool)
    requires HistoryOk(r) && Enabled(r, DoSettleChunk(k, ok))
    ensures HistoryOk(SettleChunk(r, k, ok))
  {
    hide MarkGap, Taken, HandedRecords, Unaccounted, LogOk, ConfirmedRecords, StateOk, OwnStep, CoreOk, HeldBut, FlushOk, ValidBuild;
    CoreBuffer(r, k);
    TransportParts(r);
    var (t, f) := SettleWrite(r.transport, r.inFlight[k].stage.flight, ok);
    ChunkSettled(k, r.inFlight[k], r.transport, ok);
    StageOk(r, k, Writing(f), t);
  }

  lemma ConfirmOwn(t: State, events: seq<Event>, own: seq<Record>)
    requires StateOk(t) && LogOk(t.log) && t.active > 0
    ensures OwnStep(t, t.Noting(Confirmed(events)).(active := t.active - 1), own)
    ensures ConfirmedRecords(Then(t.log, Confirmed(events))) == ConfirmedRecords(t.log) + RecordsIn(events)
    ensures HandedRecords(Then(t.log, Confirmed(events))) == HandedRecords(t.log)
  {
    hide RecordsIn, StateOk;
    assert t.Noting(Confirmed(events)).log == Then(t.log, Confirmed(events));
    StillOk(t, t.Noting(Confirmed(events)).(active := t.active - 1));
  }

  lemma ChunkSettled(k: Key, f: Flush, t: State, ok: bool)
    requires FlushOk(k, f, t) && StateOk(t) && LogOk(t.log) && t.active > 0
    requires f.stage.Writing? && f.stage.flight.writing && f.stage.flight.next < |f.stage.flight.chunks|
    ensures var (t', flight) := SettleWrite(t, f.stage.flight, ok);
            OwnStep(t, t', f.records) && FlushOk(k, f.(stage := Writing(flight)), t')
  {
    hide Taken, Unaccounted, HandedRecords, LogOk, ConfirmedRecords, StateOk, ValidBuild, DistinctPayloads, RecordsIn, Distinct;
    var flight := f.stage.flight;
    ConfirmOwn(t, flight.chunks[flight.next], f.records);
    StillOk(t, t.(active := t.active - 1));
    StayOwnStep(t, f.records);
    assert RecordsFrom(flight.chunks, flight.next) == RecordsIn(flight.chunks[flight.next]) + RecordsFrom(flight.chunks, flight.next + 1);
  }

  lemma FinishStepOk(r: Runtime, k: Key)
    requires HistoryOk(r) && Enabled(r, DoFinish(k))
    ensures HistoryOk(FinishFlush(r, k))
  {
    hide MarkGap, Taken, HandedRecords, Unaccounted, LogOk, ConfirmedRecords, StateOk, OwnStep, CoreOk, HeldBut, FlushOk, Finish;
    CoreBuffer(r, k);
    TransportParts(r);
    var f := r.inFlight[k];
    var (t, result) := Finish(r.transport, f.stage.flight);
    FinishedOwn(k, f, r.transport);
    SettledOk(k, f, result, r.transport, t);
    StageOk(r, k, Settled(result), t);
  }

  lemma FinishedOwn(k: Key, f: Flush, t: State)
    requires FlushOk(k, f, t) && StateOk(t) && LogOk(t.log)
    requires f.stage.Writing? && f.stage.flight.next == |f.stage.flight.chunks| && !f.stage.flight.writing
    ensures var (t', result) := Finish(t, f.stage.flight);
            && OwnStep(t, t', []) && OwnStep(t, t', f.records) && t'.active == t.active
            && (forall x <- f.records :: x !in Unaccounted(t'.log))
            && (result.NotStarted? ==> Unsent(f) == (set x <- f.records))
  {
    hide MarkGap, ValidBuild, DistinctPayloads, RecordsIn, RecordsFrom, StateOk, LogOk, ConfirmedRecords, HandedRecords, Taken, Unaccounted, Distinct, OwnStep;
    MarkOwnStep(t, k, []);
    MarkOwnStep(t, k, f.records);
    if f.stage.flight.started > 0 && f.stage.flight.delivered == |f.stage.flight.chunks| {
      NothingLeft(f.stage.flight.chunks);
      var t' := Finish(t, f.stage.flight).0;
      DeliverOwn(t, t', f.records, t'.log.note.reported);
      OwnStepMore(t, t', f.records);
    }
  }

  lemma NothingLeft(chunks: seq<seq<Event>>)
    ensures RecordsFrom(chunks, |chunks|) == {}
  {
  }

  lemma OwnStepMore(t: State, t': State, own: seq<Record>)
    requires OwnStep(t, t', [])
    ensures OwnStep(t, t', own)
  {
  }

  lemma DeliverOwn(t: State, t': State, records: seq<Record>, reported: Option<Key>)
    requires StateOk(t) && LogOk(t.log) && (set x <- records) <= ConfirmedRecords(t.log)
    requires t'.log == Then(t.log, Delivered(records, reported)) && t' == t.(log := t'.log, pending := t'.pending)
    requires t'.pending == t.pending || exists k :: t'.pending == t.pending - {k}
    ensures OwnStep(t, t', []) && forall x <- records :: x !in Unaccounted(t'.log)
  {
    hide LogOk, ConfirmedRecords, HandedRecords, Taken, Unaccounted;
    DeliveredPays(t.log, records, reported);
  }

  lemma DeliveredPays(h: History, records: seq<Record>, reported: Option<Key>)
    ensures var h' := Then(h, Delivered(records, reported));
            && Taken(h') == Taken(h) && HandedRecords(h') == HandedRecords(h) && ConfirmedRecords(h') == ConfirmedRecords(h)
            && (LogOk(h) && (set x <- records) <= ConfirmedRecords(h) ==> LogOk(h'))
            && Unaccounted(h') <= Unaccounted(h) && (forall x <- records :: x !in Unaccounted(h'))
  {
  }
}
