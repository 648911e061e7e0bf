/** Byte accounting and table bounds of the plugin runtime, in every reachable state. */
module RuntimeBytes {
  import opened Util
  import opened Transport
  import opened CaptureRuntime

  const MAX_RETAINED: nat := MAX_TOTAL_RETAINED_BYTES + MAX_TERMINAL_RESERVE_BYTES

  function RecordBytes(records: seq<Record>): nat {
    if |records| == 0 then 0 else RecordBytes(records[..|records| - 1]) + records[|records| - 1].bytes
  }

  function BufferSize(b: Buffer): nat { b.bytes }

  function FlushSize(f: Flush): nat { f.bytes }

  /** Bytes in buffers plus bytes in flight. */
  ghost function HeldBytes(r: Runtime): nat {
    SumOver(r.buffers, BufferSize) + SumOver(r.inFlight, FlushSize)
  }

  /** What the counter says beyond the bytes actually held. */
  ghost function Slack(r: Runtime): int {
    r.retained - HeldBytes(r)
  }

  ghost predicate BufferSized(b: Buffer) {
    |b.records| > 0 && b.bytes == RecordBytes(b.records)
  }

  ghost predicate Sized(r: Runtime) {
    && (forall k <- r.buffers :: BufferSized(r.buffers[k]))
    && (forall k <- r.inFlight :: |r.inFlight[k].records| == 0 ==> r.inFlight[k].bytes == 0)
  }

  ghost predicate Bounded(r: Runtime) {
    && |r.inFlight| <= MAX_PENDING_FLUSH_SESSIONS
    && |r.postPending| <= MAX_POST_PENDING_GAP_CHECKS
    && |r.deferred| <= MAX_DEFERRED_TERMINAL_SESSIONS
  }

  ghost predicate BytesOk(r: Runtime) {
    Sized(r) && Bounded(r) && 0 <= Slack(r) && r.retained <= MAX_RETAINED
  }

  lemma {:induction false} BytesOfMember(records: seq<Record>, record: Record)
    requires record in records
    ensures record.bytes <= RecordBytes(records)
  {
    var n := |records| - 1;
    if records[n] != record {
      assert record in records[..n];
      BytesOfMember(records[..n], record);
    }
  }

  lemma BytesPushed(records: seq<Record>, record: Record)
    ensures RecordBytes(records + [record]) == RecordBytes(records) + record.bytes
  {
    assert (records + [record])[..|records|] == records;
  }

  /** Only the tables matter to the sums. */
  lemma SameTables(r: Runtime, r': Runtime)
    requires r'.buffers == r.buffers && r'.inFlight == r.inFlight
    ensures Sized(r') <==> Sized(r)
    ensures Slack(r') - Slack(r) == r'.retained - r.retained
  {
    hide SumOver;
  }

  // ----- the operations: each keeps the slack, and grows the counter only up to the limit -----

  /** Same bookkeeping, except possibly the buffers and the counter, which agree on what changed. */
  ghost predicate Balanced(r: Runtime, r': Runtime) {
    && Sized(r') && Slack(r') == Slack(r)
    && r'.inFlight == r.inFlight && r'.postPending == r.postPending && r'.deferred == r.deferred
  }

  lemma MarkBytes(r: Runtime, k: Key)
    requires Sized(r)
    ensures Balanced(r, Mark(r, k)) && Mark(r, k).buffers == r.buffers && Mark(r, k).retained == r.retained
  {
    hide SumOver, MarkGap;
  }

  lemma RetainOnlyTerminalBytes(r: Runtime, k: Key)
    requires Sized(r) && k in r.buffers
    ensures Balanced(r, RetainOnlyTerminal(r, k)) && RetainOnlyTerminal(r, k).retained <= r.retained
  {
    hide TerminalOf, SumOver;
    var b := r.buffers[k];
    var terminal := TerminalOf(b.records);
    assert BufferSized(b);
    if terminal.None? {
      SumRemove(r.buffers, BufferSize, k);
    } else {
      BytesOfMember(b.records, terminal.value);
      BytesPushed([], terminal.value);
      assert [] + [terminal.value] == [terminal.value];
      SumPut(r.buffers, BufferSize, k, Buffer([terminal.value], terminal.value.bytes));
    }
  }

  lemma PushBytes(r: Runtime, k: Key, record: Record, onto: Buffer)
    requires Sized(r)
    requires if k in r.buffers then onto == r.buffers[k] else onto == Buffer([], 0)
    ensures Balanced(r, Push(r, k, record, onto)) && Push(r, k, record, onto).retained == r.retained + record.bytes
  {
    BytesPushed(onto.records, record);
    hide SumOver;
    SumPut(r.buffers, BufferSize, k, Buffer(onto.records + [record], onto.bytes + record.bytes));
    if k in r.buffers {
      assert BufferSized(r.buffers[k]);
    }
  }

  lemma DropBufferBytes(r: Runtime, k: Key)
    requires Sized(r) && k in r.buffers
    ensures Balanced(r, DropBuffer(r, k)) && DropBuffer(r, k).retained <= r.retained
  {
    hide SumOver;
    SumRemove(r.buffers, BufferSize, k);
  }

  lemma RestoreTerminalBytes(r: Runtime, k: Key, terminal: Record)
    requires Sized(r) && r.retained <= MAX_RETAINED
    ensures Balanced(r, RestoreTerminal(r, k, terminal).0) && RestoreTerminal(r, k, terminal).0.retained <= MAX_RETAINED
  {
    hide Sized, Slack, TerminalOf, DropBuffer, Push, Mark;
    var r1 := if Overfull(r, k, terminal.bytes) then Mark(DropBuffer(r, k), k) else r;
    if Overfull(r, k, terminal.bytes) {
      DropBufferBytes(r, k);
      MarkBytes(DropBuffer(r, k), k);
    }
    MarkBytes(r1, k);
    PushBytes(r1, k, terminal, if k in r1.buffers then r1.buffers[k] else Buffer([], 0));
  }

  lemma StartFlushBytes(r: Runtime, k: Key)
    requires Sized(r) && k !in r.inFlight
    ensures var r' := StartFlush(r, k);
            && Sized(r') && Slack(r') == Slack(r) && r'.retained == r.retained
            && |r'.inFlight| == |r.inFlight| + 1 && r'.postPending == r.postPending && r'.deferred == r.deferred
  {
    hide SumOver, RecordBytes;
    var f := StartFlush(r, k).inFlight[k];
    SumPut(r.inFlight, FlushSize, k, f);
    if k in r.buffers {
      assert BufferSized(r.buffers[k]);
      SumRemove(r.buffers, BufferSize, k);
    }
  }

  lemma DeferTerminalBytes(r: Runtime, k: Key)
    requires Sized(r) && Bounded(r)
    ensures var r' := DeferTerminal(r, k);
            Sized(r') && Bounded(r') && Slack(r') == Slack(r) && r'.retained == r.retained && r'.inFlight == r.inFlight
  {
    hide Sized, Slack;
    SameTables(r, DeferTerminal(r, k));
  }

  lemma AfterPendingBytes(r: Runtime, k: Key, hasTerminal: bool)
    requires Sized(r) && Bounded(r)
    ensures var r' := CheckAfterPending(r, k, hasTerminal);
            Sized(r') && Bounded(r') && Slack(r') == Slack(r) && r'.retained == r.retained
  {
    hide Sized, Slack, DeferTerminal;
    DeferTerminalBytes(r, k);
    var checked := r.(postPending := r.postPending + {k});
    SameTables(r, checked);
    assert k in r.postPending ==> checked.postPending == r.postPending;
    assert k !in r.postPending ==> |checked.postPending| == |r.postPending| + 1;
  }

  lemma ScheduleFlushBytes(r: Runtime, k: Key, force: bool)
    requires BytesOk(r)
    ensures var r' := ScheduleFlush(r, k, force);
            BytesOk(r') && Slack(r') == Slack(r) && r'.retained <= r.retained
  {
    hide Sized, Slack, TerminalOf, StartFlush, RetainOnlyTerminal, Mark, DeferTerminal, CheckAfterPending;
    var r1 := if |BufferedRecords(r, k)| > 0 then Mark(RetainOnlyTerminal(r, k), k) else r;
    if |BufferedRecords(r, k)| > 0 {
      RetainOnlyTerminalBytes(r, k);
      MarkBytes(RetainOnlyTerminal(r, k), k);
    }
    AfterPendingBytes(r1, k, TerminalOf(BufferedRecords(r, k)).Some?);
    DeferTerminalBytes(r1, k);
    if k !in r.inFlight {
      StartFlushBytes(r, k);
    }
  }

  // ----- appending: the one place where slack can grow -----

  /**
   * A full buffer that could not be flushed keeps its terminal record, and the
   * new record's buffer replaces it: the bytes of that terminal stay counted.
   */
  ghost predicate Leaks(r: Runtime, record: Record) {
    var k := record.key;
    && Overfull(r, k, record.bytes)
    && (k in r.inFlight || |r.inFlight| >= MAX_PENDING_FLUSH_SESSIONS)
    && var terminal := TerminalOf(r.buffers[k].records);
    && terminal.Some?
    && r.retained - r.buffers[k].bytes + terminal.value.bytes + record.bytes
       <= (if record.terminal then MAX_RETAINED else MAX_TOTAL_RETAINED_BYTES)
  }

  function LeakedBytes(r: Runtime, record: Record): nat {
    var terminal := TerminalOf(BufferedRecords(r, record.key));
    if terminal.Some? then terminal.value.bytes else 0
  }

  lemma PushOverBytes(r: Runtime, k: Key, record: Record)
    requires Sized(r) && k in r.buffers
    ensures var r' := Push(r, k, record, Buffer([], 0));
            && Sized(r') && Slack(r') == Slack(r) + r.buffers[k].bytes && r'.retained == r.retained + record.bytes
            && r'.inFlight == r.inFlight && r'.postPending == r.postPending && r'.deferred == r.deferred
  {
    BytesPushed([], record);
    hide SumOver;
    SumPut(r.buffers, BufferSize, k, Buffer([] + [record], 0 + record.bytes));
  }

  /** Flushing a full buffer leaves no buffer behind, except the terminal it had when it could not be flushed. */
  lemma ScheduleFull(r: Runtime, k: Key)
    requires |BufferedRecords(r, k)| > 0
    ensures var r' := ScheduleFlush(r, k, false);
            if (k in r.inFlight || |r.inFlight| >= MAX_PENDING_FLUSH_SESSIONS) && TerminalOf(r.buffers[k].records).Some? then
              var terminal := TerminalOf(r.buffers[k].records).value;
              && k in r'.buffers && r'.buffers[k] == Buffer([terminal], terminal.bytes)
              && r'.retained == r.retained - r.buffers[k].bytes + terminal.bytes
            else k !in r'.buffers
  {
    hide TerminalOf, MarkGap;
  }

  /** Appending adds slack exactly when it leaks, and then exactly the stranded terminal's bytes. */
  lemma AppendBytes(r: Runtime, record: Record)
    requires BytesOk(r)
    ensures BytesOk(Append(r, record))
    ensures Slack(Append(r, record)) == Slack(r) + if Leaks(r, record) then LeakedBytes(r, record) else 0
  {
    hide SumOver, Sized, Slack, TerminalOf, ScheduleFlush, Push, MarkGap;
    var k := record.key;
    var r0 := r.(transport := r.transport.Noting(Took(record)));
    SameTables(r, r0);
    var overfull := Overfull(r0, k, record.bytes);
    var r1 := if overfull then ScheduleFlush(r0, k, false) else r0;
    if overfull {
      ScheduleFlushBytes(r0, k, false);
      ScheduleFull(r0, k);
    }
    MarkBytes(r1, k);
    var r2 := if record.terminal && r1.retained + record.bytes > MAX_TOTAL_RETAINED_BYTES then Mark(r1, k) else r1;
    if !overfull || k !in r2.buffers {
      PushBytes(r2, k, record, if !overfull && k in r2.buffers then r2.buffers[k] else Buffer([], 0));
    } else {
      PushOverBytes(r2, k, record);
    }
  }

  // ----- steps and runs -----

  lemma SetStageBytes(r: Runtime, k: Key, stage: Stage, t: State)
    requires BytesOk(r) && k in r.inFlight
    ensures BytesOk(SetStage(r, k, stage, t)) && Slack(SetStage(r, k, stage, t)) == Slack(r)
  {
    hide SumOver;
    SumPut(r.inFlight, FlushSize, k, r.inFlight[k].(stage := stage));
    assert |r.inFlight[k := r.inFlight[k].(stage := stage)]| == |r.inFlight|;
  }

  lemma ReleaseBytes(r: Runtime, k: Key)
    requires BytesOk(r) && k in r.inFlight && r.inFlight[k].stage.Settled?
    ensures BytesOk(Release(r, k)) && Slack(Release(r, k)) == Slack(r)
    ensures |Release(r, k).inFlight| < MAX_PENDING_FLUSH_SESSIONS
  {
    hide SumOver, Sized, Slack, TerminalOf, RestoreTerminal, DeferTerminal;
    var f := r.inFlight[k];
    FlushSized(r, k);
    var r1 := if |f.records| > 0 then r.(retained := r.retained - f.bytes) else r;
    SameTables(r, r1);
    RestoreUnsentBytes(r1, k, f);
    RemoveFlushBytes(RestoreUnsent(r1, k, f), k);
  }

  ghost predicate BalancedUpTo(r: Runtime, r': Runtime) {
    && Sized(r') && Slack(r') == Slack(r) && Bounded(r') && r'.inFlight == r.inFlight && r'.retained <= MAX_RETAINED
  }

  lemma RestoreUnsentBytes(r: Runtime, k: Key, f: Flush)
    requires Sized(r) && Bounded(r) && r.retained <= MAX_RETAINED && f.stage.Settled?
    ensures BalancedUpTo(r, RestoreUnsent(r, k, f))
  {
    hide Sized, Slack, TerminalOf, RestoreTerminal, DeferTerminal;
    var terminal := TerminalOf(f.records);
    if terminal.Some? && f.stage.result.NotStarted? {
      RestoreTerminalBytes(r, k, terminal.value);
      DeferTerminalBytes(RestoreTerminal(r, k, terminal.value).0, k);
    }
  }

  lemma FlushSized(r: Runtime, k: Key)
    requires Sized(r) && k in r.inFlight
    ensures |r.inFlight[k].records| == 0 ==> r.inFlight[k].bytes == 0
  {
  }

  lemma RemoveFlushBytes(r: Runtime, k: Key)
    requires Sized(r) && k in r.inFlight
    ensures var r' := r.(inFlight := r.inFlight - {k});
            Sized(r') && Slack(r') == Slack(r) + r.inFlight[k].bytes && |r'.inFlight| == |r.inFlight| - 1
  {
    hide SumOver;
    SumRemove(r.inFlight, FlushSize, k);
    assert r.inFlight.Keys == (r.inFlight - {k}).Keys + {k};
  }

  lemma CompleteBytes(r: Runtime, k: Key, pick: Option<Key>)
    requires BytesOk(r) && k in r.inFlight && r.inFlight[k].stage.Settled?
    ensures BytesOk(Complete(r, k, pick)) && Slack(Complete(r, k, pick)) == Slack(r)
  {
    hide Release, ScheduleFlush, SumOver, Sized, Slack, FirstDeferred, Without;
    ReleaseBytes(r, k);
    var released := Release(r, k);
    var first := FirstDeferred(released.deferred, released.inFlight.Keys);
    var checked := released.(postPending := released.postPending - {k});
    SameTables(released, checked);
    ScheduleFlushBytes(checked, k, true);
    if first.Some? {
      WithoutShrinks(released.deferred, first.value);
      SameTables(released, released.(deferred := Without(released.deferred, first.value)));
      ScheduleFlushBytes(released.(deferred := Without(released.deferred, first.value)), first.value, true);
    } else if pick.Some? {
      ScheduleFlushBytes(released, pick.value, true);
    }
  }

  lemma {:induction false} WithoutShrinks(keys: seq<Key>, k: Key)
    ensures |Without(keys, k)| == |keys| - if k in keys then 1 else 0
  {
    if |keys| > 0 && keys[0] != k {
      WithoutShrinks(keys[1..], k);
    }
  }

  ghost predicate StepLeaks(r: Runtime, step: Step) {
    step.DoAppend? && Leaks(r, step.record)
  }

  lemma StepBytes(r: Runtime, step: Step)
    requires BytesOk(r) && Enabled(r, step)
    ensures BytesOk(Do(r, step))
    ensures Slack(Do(r, step)) == Slack(r) + if StepLeaks(r, step) then LeakedBytes(r, step.record) else 0
  {
    hide Slack, Sized, Append, ScheduleFlush, Complete, Release, Leaks;
    match step
    case DoAppend(record) => AppendBytes(r, record);
    case DoSchedule(k, force) => ScheduleFlushBytes(r, k, force);
    case DoComplete(k, pick) => CompleteBytes(r, k, pick);
    case DoBegin(k, build) =>
      var (t, begun) := Begin(r.transport, k, r.inFlight[k].records, false, build);
      SetStageBytes(r, k, if begun.Flying? then Writing(begun.flight) else Settled(begun.result), t);
    case DoStartChunk(k) =>
      var (t, f) := StartWrite(r.transport, r.inFlight[k].stage.flight);
      SetStageBytes(r, k, Writing(f), t);
    case DoSettleChunk(k, ok) =>
      var (t, f) := SettleWrite(r.transport, r.inFlight[k].stage.flight, ok);
      SetStageBytes(r, k, Writing(f), t);
    case DoFinish(k) =>
      var (t, result) := Finish(r.transport, r.inFlight[k].stage.flight);
      SetStageBytes(r, k, Settled(result), t);
  }

  /** The bytes of all the terminals that the appends of a run have stranded. */
  ghost function Stranded(start: Runtime, steps: seq<Step>): nat
    requires IsRun(start, steps)
    decreases |steps|
  {
    if |steps| == 0 then 0
    else (if StepLeaks(start, steps[0]) then LeakedBytes(start, steps[0].record) else 0)
         + Stranded(Do(start, steps[0]), steps[1..])
  }

  /**
   * Over every run the bytes held are at most the counter, the counter at most
   * 32 MiB, and at most 64 sessions are in flight; and the counter drifts from
   * the bytes held by exactly what the appends of the run stranded.
   */
  lemma {:induction false} RunBytes(start: Runtime, steps: seq<Step>)
    requires BytesOk(start) && IsRun(start, steps)
    ensures BytesOk(After(start, steps))
    ensures Slack(After(start, steps)) == Slack(start) + Stranded(start, steps)
    decreases |steps|
  {
    if |steps| > 0 {
      hide BytesOk, Slack, Enabled, Do, LeakedBytes, StepLeaks;
      StepBytes(start, steps[0]);
      RunBytes(Do(start, steps[0]), steps[1..]);
    }
  }

  lemma InitialBytes()
    ensures BytesOk(INITIAL) && Slack(INITIAL) == 0
  {
  }

  /** The accounting is exact after a step iff it was exact before and the step did not strand a terminal. */
  lemma ExactIff(r: Runtime, step: Step)
    requires BytesOk(r) && Enabled(r, step)
    requires StepLeaks(r, step) ==> LeakedBytes(r, step.record) > 0
    ensures Slack(Do(r, step)) == 0 <==> Slack(r) == 0 && !StepLeaks(r, step)
  {
    StepBytes(r, step);
  }

  /** Every reachable state satisfies the byte bounds. */
  lemma ReachableBytes(r: Runtime)
    requires Reachable(r)
    ensures BytesOk(r)
  {
    hide Slack, Sized;
    var steps :| IsRun(INITIAL, steps) && After(INITIAL, steps) == r;
    InitialBytes();
    RunBytes(INITIAL, steps);
  }
}
