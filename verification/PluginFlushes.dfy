/** Which events flush their session, and what each leaves buffered. */
module PluginFlushes {
  // Idle, error, compaction and deletion flush; a tool event only fills the
  // buffer.  Whatever a live session's event says is appended.

  import opened Util
  import opened Contracts
  import opened Transport
  import opened CaptureRuntime
  import opened RuntimeDelivery
  import opened RuntimeAnswers
  import RuntimeBytes
  import RuntimeRuns
  import RuntimeGaps
  import opened RuntimeHistory
  import R = OpenCodeReducer
  import RS = ReducerSteps
  import RQ = ReducerQuota
  import RR = ReducerRuns
  import RA = ReducerAnswers
  import opened PluginEvents

  // ----- what is appended -----

  /** The event leaves its session out of the table of finalized ones, or puts it there itself. */
  predicate Listened(s: R.Reducer, e: R.Event) {
    RR.SessionOf(e) !in s.finalized.values
  }

  lemma {:induction false} FilteredAll(s: R.Reducer, records: seq<R.Record>)
    requires forall r <- records :: r.SessionFinished? || r.sessionID !in s.finalized.values
    ensures Filtered(s, records) == (s, records)
    decreases |records|
  {
    if |records| > 0 {
      assert records[0] in records;
      assert forall r <- records[1..] :: r in records;
      FilteredAll(s, records[1..]);
      assert [records[0]] + records[1..] == records;
    }
  }

  /** Everything the reducer says of a session that was not finalized is kept, in order; of a finalized one nothing. */
  lemma KeptIs(s: R.Reducer, e: R.Event)
    requires RS.ReducerOk(s)
    ensures Reported(s, e).1 == if Listened(s, e) then RA.Said(s, e) else []
  {
    hide RS.ReducerOk, R.Reduce, RA.Said, Reported, RQ.AcceptsDelete;
    RA.Says(s, e);
    if e.Irrelevant? {
      IrrelevantIsSilent(s);
      RA.SaysNothing(s);
    } else if Listened(s, e) {
      ListenedKept(s, e);
    } else {
      FinalizedIsSilent(s, e);
    }
  }

  lemma ListenedKept(s: R.Reducer, e: R.Event)
    requires RS.ReducerOk(s) && !e.Irrelevant? && Listened(s, e)
    ensures Reported(s, e).1 == R.Reduce(s, e).1
  {
    hide RS.ReducerOk, R.Reduce, RQ.AcceptsDelete;
    var (reduced, records) := R.Reduce(s, e);
    if RQ.AcceptsDelete(s, e) {
      RR.AcceptedDelete(s, e);
    } else {
      RR.EventOutput(s, e);
      NotFinalizedBy(s, e);
    }
    FilteredAll(reduced, records);
  }

  /** Only an accepted deletion puts its session into the table of finalized ones. */
  lemma NotFinalizedBy(s: R.Reducer, e: R.Event)
    requires RS.ReducerOk(s) && !e.Irrelevant? && Listened(s, e) && !RQ.AcceptsDelete(s, e)
    ensures e.sessionID !in R.Reduce(s, e).0.finalized.values
  {
    hide RS.ReducerOk, R.Reduce, RQ.AcceptsDelete, RA.Openable, RA.Holds, RA.StatusesAfter, RA.IdsAfter, RA.Switches;
    RQ.ReduceOk(s, e);
    if RA.Openable(s, e.sessionID) {
      RA.Keeps(s, e);
      RA.NotDeleted(R.Reduce(s, e).0, e.sessionID);
    } else {
      RA.StaysMarked(s, e);
    }
  }

  // ----- the flush -----

  /** All that was buffered is in flight, and so is what was appended, unless a gap was marked for it. */
  ghost predicate AllSentOff(r: Runtime, r': Runtime, k: Key, xs: seq<Record>) {
    && k in r'.inFlight && r'.inFlight[k].stage.Queued?
    && (r'.inFlight[k].records == BufferedRecords(r, k) + xs
        || (r'.inFlight[k].records == BufferedRecords(r, k) && Marks(r'.transport.log, k) > Marks(r.transport.log, k)))
  }

  lemma OneAtMost(s: R.Reducer, e: R.Event)
    requires RS.ReducerOk(s) && !e.ToolUpdated?
    ensures |Reported(s, e).1| <= 1
  {
    hide RS.ReducerOk, Reported, RA.Judge, RA.Openable, RA.BytesNoted;
    KeptIs(s, e);
  }

  /** Appending one record to a session and flushing it by force. */
  lemma AppendThenFlush(r: Runtime, x: Record)
    requires Reachable(r) && x.key !in r.inFlight && |r.inFlight| < 64
    ensures AllSentOff(r, ScheduleFlush(Append(r, x), x.key, true), x.key, [x])
  {
    hide Reachable, Append, ScheduleFlush, MarkGap, RuntimeBytes.BytesOk;
    var k, b := x.key, BufferedRecords(r, x.key);
    BufferBytes(r, k);
    AppendKeepsGap(r, x, k);
    ScheduleKeepsGap(Append(r, x), k, true, k);
    var r1 := Append(r, x);
    if |b| > 0 && Bytes(r, k) + x.bytes > 512 * 1024 {
      OverfullThenFlush(r, x);
    } else {
      AppendInPlace(r, x);
      ScheduleStarts(r1, k, true);
    }
  }

  lemma BufferBytes(r: Runtime, k: Key)
    requires Reachable(r)
    ensures |BufferedRecords(r, k)| == 0 ==> k !in r.buffers
  {
    hide Reachable, RuntimeBytes.Slack;
    RuntimeBytes.ReachableBytes(r);
    if k in r.buffers {
      assert RuntimeBytes.BufferSized(r.buffers[k]);
    }
  }

  /** Without overflowing its buffer a record joins it, or is marked. */
  lemma AppendInPlace(r: Runtime, x: Record)
    requires |BufferedRecords(r, x.key)| == 0 || Bytes(r, x.key) + x.bytes <= 512 * 1024
    requires |BufferedRecords(r, x.key)| == 0 ==> x.key !in r.buffers
    ensures var r' := Append(r, x);
            && r'.inFlight == r.inFlight
            && (BufferedRecords(r', x.key) == BufferedRecords(r, x.key) + [x]
                || (BufferedRecords(r', x.key) == BufferedRecords(r, x.key) && Marks(r'.transport.log, x.key) > Marks(r.transport.log, x.key)))
  {
    hide ScheduleFlush, TerminalOf, MarkGap;
    MarkNotes(r.transport.Noting(Took(x)), x.key);
    MarkNotes(r.transport, x.key);
  }

  lemma OverfullThenFlush(r: Runtime, x: Record)
    requires |BufferedRecords(r, x.key)| > 0 && Bytes(r, x.key) + x.bytes > 512 * 1024
    requires x.key !in r.inFlight && |r.inFlight| < 64
    ensures AllSentOff(r, ScheduleFlush(Append(r, x), x.key, true), x.key, [x])
  {
    hide ScheduleFlush, TerminalOf, MarkGap, Admit;
    var k := x.key;
    var r0 := r.(transport := r.transport.Noting(Took(x)));
    ScheduleStarts(r0, k, false);
    var sent := ScheduleFlush(r0, k, false);
    AdmitFresh(sent, x);
    var r1 := Append(r, x);
    assert r1 == Admit(sent, x, Buffer([], 0));
    MarkNotes(r1.transport, k);
    if |BufferedRecords(r1, k)| > 0 {
      ScheduleBehind(r1, k, true);
    } else {
      ScheduleBehindEmpty(r1, k);
    }
  }

  /** Starting a new buffer: the record is in it, or marked. */
  lemma AdmitFresh(r: Runtime, x: Record)
    requires BufferedRecords(r, x.key) == []
    ensures var r' := Admit(r, x, Buffer([], 0));
            && r'.inFlight == r.inFlight && Marks(r'.transport.log, x.key) >= Marks(r.transport.log, x.key)
            && (BufferedRecords(r', x.key) == [x]
                || (BufferedRecords(r', x.key) == [] && Marks(r'.transport.log, x.key) > Marks(r.transport.log, x.key)))
  {
    hide MarkGap;
    MarkNotes(r.transport, x.key);
    assert [] + [x] == [x];
  }

  // ----- event by event -----

  /** Appending what an event other than a tool event says: nothing, or one record. */
  lemma AppendedOne(r: Runtime, xs: seq<Record>)
    requires |xs| <= 1
    ensures AppendAll(r, xs) == if |xs| == 0 then r else Append(r, xs[0])
  {
    if |xs| == 1 {
      assert xs[1..] == [];
    }
  }

  lemma KeysAre(p: Plugin, e: R.Event, xs: seq<Record>)
    requires RS.ReducerOk(p.reducer) && Fits(xs, Reported(p.reducer, e).1, p.runtime.transport.log)
    ensures forall x <- xs :: x.key == Session(RR.SessionOf(e))
  {
    hide RS.ReducerOk, Reported, Taken, Normalized, RQ.AcceptsDelete;
    ReportedIs(p.reducer, e);
  }

  /** What the hook does with the runtime for a target event of a session it still listens to. */
  lemma TargetHandled(p: Plugin, e: R.Event, xs: seq<Record>)
    requires PluginOk(p) && Listened(p.reducer, e) && Fits(xs, Reported(p.reducer, e).1, p.runtime.transport.log)
    requires match e case SessionEvent(_, _, _) => true case SessionDeleted(_, _, _) => true case _ => false
    ensures |xs| <= 1
    ensures var k := Session(e.sessionID);
            var appended := if |xs| == 0 then p.runtime else Append(p.runtime, xs[0]);
            Handle(p, e, xs).runtime ==
              if |xs| > 0 || |BufferedRecords(appended, k)| > 0 || k in appended.inFlight || HasPendingGap(appended.transport, k)
              then ScheduleFlush(appended, k, true) else appended
  {
    hide RS.ReducerOk, R.Reduce, R.TouchFinalized, Reachable, Taken, Append, ScheduleFlush, Filtered, Normalized, RQ.AcceptsDelete, HasPendingGap, AppendAll;
    OneAtMost(p.reducer, e);
    AppendedOne(p.runtime, xs);
    HandleOk(p, e, xs);
    if RQ.AcceptsDelete(p.reducer, e) {
      RR.AcceptedDelete(p.reducer, e);
      assert R.SessionFinished(e.sessionID, e.eventID) in R.Reduce(p.reducer, e).1;
      assert Ends(R.Reduce(p.reducer, e).1, e.sessionID);
    } else {
      NotFinalizedBy(p.reducer, e);
    }
    TargetTouch(p, e);
  }

  lemma TargetTouch(p: Plugin, e: R.Event)
    requires PluginOk(p) && (e.SessionEvent? || e.SessionDeleted?)
    ensures R.TouchFinalized(Reported(p.reducer, e).0, e.sessionID).finalized.values == R.Reduce(p.reducer, e).0.finalized.values
  {
    hide RS.ReducerOk, R.Reduce, R.TouchFinalized, Filtered, Reachable;
    RQ.ReduceOk(p.reducer, e);
    var (reduced, records) := R.Reduce(p.reducer, e);
    FilteredOk(reduced, records);
    RS.TouchOk(Filtered(reduced, records).0, e.sessionID);
  }

  lemma GapIsKnown(r: Runtime, k: Key)
    requires Reachable(r)
    ensures HasPendingGap(r.transport, k) <==> k in r.transport.pending
  {
    hide Reachable, LogOk, BufferOk, FlushOk;
    RuntimeRuns.ReachableHistoryOk(r);
    RuntimeGaps.ReachableGapsOk(r);
  }

  /**
   * After an idle, error, compaction or deletion event of a session that was not
   * finalized, with no flush of it pending and fewer than 64 in all, whatever was
   * buffered is in flight, and so is what the event said unless a gap was marked
   * for it; a gap alone is sent off too, and with nothing to send nothing happens.
   */
  lemma TargetSendsOff(p: Plugin, e: R.Event, xs: seq<Record>)
    requires PluginOk(p) && Listened(p.reducer, e) && Fits(xs, Reported(p.reducer, e).1, p.runtime.transport.log)
    requires match e
             case SessionEvent(_, _, Idle) => true
             case SessionEvent(_, _, Error) => true
             case SessionEvent(_, _, Compacted) => true
             case SessionDeleted(_, _, _) => true
             case _ => false
    requires Session(e.sessionID) !in p.runtime.inFlight && |p.runtime.inFlight| < 64
    ensures var k, r, r' := Session(e.sessionID), p.runtime, Handle(p, e, xs).runtime;
            if |xs| > 0 || |BufferedRecords(r, k)| > 0 || k in r.transport.pending then AllSentOff(r, r', k, xs) else r' == r
  {
    hide RS.ReducerOk, Reachable, Append, ScheduleFlush, Reported, Handle, HasPendingGap, Taken, Normalized, MarkGap;
    var k := Session(e.sessionID);
    TargetHandled(p, e, xs);
    KeysAre(p, e, xs);
    GapIsKnown(p.runtime, k);
    if |xs| > 0 {
      AppendThenFlush(p.runtime, xs[0]);
      assert xs == [xs[0]];
    } else if |BufferedRecords(p.runtime, k)| > 0 || k in p.runtime.transport.pending {
      ScheduleStarts(p.runtime, k, true);
      assert BufferedRecords(p.runtime, k) + xs == BufferedRecords(p.runtime, k);
    }
  }

  /** Behind a pending flush, or with 64 of them, the target event starts none, and leaves no plain record waiting. */
  lemma TargetWaits(p: Plugin, e: R.Event, xs: seq<Record>)
    requires PluginOk(p) && Listened(p.reducer, e) && Fits(xs, Reported(p.reducer, e).1, p.runtime.transport.log)
    requires e.SessionEvent? || e.SessionDeleted?
    requires Session(e.sessionID) in p.runtime.inFlight
    ensures var k, r, r' := Session(e.sessionID), p.runtime, Handle(p, e, xs).runtime;
            && k in r'.inFlight && r'.inFlight[k] == r.inFlight[k]
            && (forall x <- BufferedRecords(r', k) :: x.terminal)
            && (|BufferedRecords(r', k)| > 0 ==> k in r'.postPending || |r'.postPending| >= 256)
            && (|xs| == 0 && |BufferedRecords(r, k)| == 0 ==> k in r'.postPending || |r'.postPending| >= 256)
  {
    hide RS.ReducerOk, Reachable, Append, ScheduleFlush, Reported, Handle, HasPendingGap, Taken, Normalized, MarkGap;
    var k := Session(e.sessionID);
    TargetHandled(p, e, xs);
    KeysAre(p, e, xs);
    var r := if |xs| == 0 then p.runtime else Append(p.runtime, xs[0]);
    if |xs| > 0 {
      AppendKeepsFlight(p.runtime, xs[0], k);
    }
    if |BufferedRecords(r, k)| > 0 {
      ScheduleBehind(r, k, true);
    } else {
      ScheduleBehindEmpty(r, k);
    }
  }

  /** An event of a finalized session leaves the runtime alone. */
  lemma FinalizedLeavesRuntime(p: Plugin, e: R.Event, xs: seq<Record>)
    requires PluginOk(p) && !Listened(p.reducer, e) && !e.Irrelevant? && Fits(xs, Reported(p.reducer, e).1, p.runtime.transport.log)
    ensures Handle(p, e, xs).runtime == p.runtime
  {
    hide RS.ReducerOk, R.Reduce, R.TouchFinalized, Reachable, Taken, ScheduleFlush, Filtered, Normalized;
    FinalizedIsSilent(p.reducer, e);
    AppendedOne(p.runtime, xs);
    if e.SessionEvent? || e.SessionDeleted? {
      TargetTouch(p, e);
      RR.FinalizedReportsOnce(p.reducer, e);
      NoEnd(p.reducer, e);
    }
  }

  lemma NoEnd(s: R.Reducer, e: R.Event)
    requires RS.ReducerOk(s) && !e.Irrelevant? && e.sessionID in s.finalized.values
    ensures !Ends(R.Reduce(s, e).1, e.sessionID)
  {
    hide RS.ReducerOk, R.Reduce;
    RR.FinalizedReportsOnce(s, e);
  }

  /**
   * A tool event, or one that means nothing here, starts no flush: what it says
   * is appended, and with room for it in the session's buffer and in memory that
   * is all that happens.
   */
  lemma ToolOnlyAppends(p: Plugin, e: R.Event, xs: seq<Record>)
    requires PluginOk(p) && (e.ToolUpdated? || e.Irrelevant?) && Fits(xs, Reported(p.reducer, e).1, p.runtime.transport.log)
    ensures var k, r, r' := Session(RR.SessionOf(e)), p.runtime, Handle(p, e, xs).runtime;
            var added := RuntimeBytes.RecordBytes(xs);
            && r' == AppendAll(r, xs)
            && (Bytes(r, k) + added <= 512 * 1024 && r.retained + added <= 16 * 1024 * 1024 ==>
                  && r'.inFlight == r.inFlight && r'.retained == r.retained + added
                  && BufferedRecords(r', k) == BufferedRecords(r, k) + xs
                  && (forall j :: Marks(r'.transport.log, j) == Marks(r.transport.log, j)))
  {
    hide RS.ReducerOk, R.Reduce, Reachable, AppendAll, Reported, Taken, Normalized, RuntimeBytes.RecordBytes, Marks;
    var k, r := Session(RR.SessionOf(e)), p.runtime;
    KeysAre(p, e, xs);
    BufferBytes(r, k);
    if Bytes(r, k) + RuntimeBytes.RecordBytes(xs) <= 512 * 1024 && r.retained + RuntimeBytes.RecordBytes(xs) <= 16 * 1024 * 1024 {
      forall j
        ensures Marks(AppendAll(r, xs).transport.log, j) == Marks(r.transport.log, j)
      {
        AllAppended(r, k, xs, j);
      }
      AllAppended(r, k, xs, k);
    }
  }

  lemma OneAppended(r: Runtime, x: Record, j: Key)
    requires |BufferedRecords(r, x.key)| == 0 ==> x.key !in r.buffers
    requires Bytes(r, x.key) + x.bytes <= 512 * 1024 && r.retained + x.bytes <= 16 * 1024 * 1024
    ensures var r' := Append(r, x);
            && r'.inFlight == r.inFlight && r'.retained == r.retained + x.bytes
            && BufferedRecords(r', x.key) == BufferedRecords(r, x.key) + [x] && Bytes(r', x.key) == Bytes(r, x.key) + x.bytes
            && Marks(r'.transport.log, j) == Marks(r.transport.log, j)
  {
    hide Append;
    AppendFits(r, x);
  }

  lemma {:induction false} AllAppended(r: Runtime, k: Key, xs: seq<Record>, j: Key)
    requires (forall x <- xs :: x.key == k) && (|BufferedRecords(r, k)| == 0 ==> k !in r.buffers)
    requires Bytes(r, k) + RuntimeBytes.RecordBytes(xs) <= 512 * 1024 && r.retained + RuntimeBytes.RecordBytes(xs) <= 16 * 1024 * 1024
    ensures var r' := AppendAll(r, xs);
            && r'.inFlight == r.inFlight && r'.retained == r.retained + RuntimeBytes.RecordBytes(xs)
            && BufferedRecords(r', k) == BufferedRecords(r, k) + xs
            && Marks(r'.transport.log, j) == Marks(r.transport.log, j)
    decreases |xs|
  {
    hide Append, BufferedRecords, Bytes, Marks;
    if |xs| == 0 {
      assert BufferedRecords(r, k) + xs == BufferedRecords(r, k);
    } else {
      var x, rest := xs[0], xs[1..];
      assert x in xs && forall y <- rest :: y in xs;
      FirstBytes(xs);
      OneAppended(r, x, j);
      AllAppended(Append(r, x), k, rest, j);
      assert BufferedRecords(r, k) + [x] + rest == BufferedRecords(r, k) + xs;
    }
  }

  lemma {:induction false} FirstBytes(xs: seq<Record>)
    requires |xs| > 0
    ensures RuntimeBytes.RecordBytes(xs) == xs[0].bytes + RuntimeBytes.RecordBytes(xs[1..])
    decreases |xs|
  {
    var front := xs[..|xs| - 1];
    if |xs| == 1 {
      assert front == [] && xs[1..] == [];
    } else {
      FirstBytes(front);
      assert xs[1..][..|xs| - 2] == front[1..];
    }
  }
}
