/** The plugin runtime object, each method tied to the step it takes in `CaptureRuntime`. */
module PluginRuntimes {
  import opened Util
  import opened Transport
  import opened BatchTransports
  import opened CaptureRuntime
  import C = CaptureRuntime

  /** `terminalControl`: the last `session_finished` among the records. */
  method TerminalControl(records: seq<Record>) returns (terminal: Option<Record>)
    ensures terminal == TerminalOf(records)
  {
    var index := |records|;
    WholeSlice(records);
    while index > 0
      invariant 0 <= index <= |records| && TerminalOf(records) == TerminalOf(records[..index])
    {
      index := index - 1;
      if records[index].terminal {
        return Some(records[index]);
      }
      assert records[..index + 1][..index] == records[..index];
    }
    return None;
  }

  class PluginRuntime {
    const transport: BatchTransport
    var buffers: map<Key, Buffer>
    var pendingFlushes: map<Key, nat>
    var postPendingGapChecks: set<Key>
    var deferredTerminalSessions: seq<Key>
    var retainedBytes: int
    /** What the callbacks of the pending flushes captured. */
    var captured: map<Key, Flush>

    ghost predicate Valid()
      reads this
    {
      captured.Keys == pendingFlushes.Keys && forall k <- pendingFlushes :: pendingFlushes[k] == 1
    }

    ghost function State(): Runtime
      reads this, transport
    {
      Runtime(buffers, captured, postPendingGapChecks, deferredTerminalSessions, retainedBytes, transport.State())
    }

    constructor ()
      ensures Valid() && fresh(transport) && State() == INITIAL
    {
      transport := new BatchTransport(Drop);
      buffers, pendingFlushes, postPendingGapChecks := map[], map[], {};
      deferredTerminalSessions, retainedBytes, captured := [], 0, map[];
    }

    method RetainOnlyTerminal(k: Key) returns (terminal: Option<Record>)
      requires Valid() && k in buffers
      modifies this`buffers, this`retainedBytes
      ensures Valid() && State() == C.RetainOnlyTerminal(old(State()), k)
      ensures terminal == TerminalOf(old(buffers)[k].records)
    {
      var buffer := buffers[k];
      terminal := TerminalControl(buffer.records);
      retainedBytes := retainedBytes - buffer.bytes;
      if terminal.None? {
        buffers := buffers - {k};
        return;
      }
      buffers := buffers[k := Buffer([terminal.value], terminal.value.bytes)];
      retainedBytes := retainedBytes + terminal.value.bytes;
    }

    method RestoreTerminal(k: Key, terminal: Record) returns (ok: bool)
      requires Valid()
      modifies this`buffers, this`retainedBytes, transport
      ensures Valid() && (State(), ok) == C.RestoreTerminal(old(State()), k, terminal)
    {
      hide MarkGap, TerminalOf;
      var buffered := if k in buffers then buffers[k].records else [];
      var present := TerminalControl(buffered);
      if present.Some? {
        return true;
      }
      if |buffered| > 0 && buffers[k].bytes + terminal.bytes > MAX_SESSION_BUFFER_BYTES {
        retainedBytes := retainedBytes - buffers[k].bytes;
        buffers := buffers - {k};
        transport.MarkGap(k);
      }
      if retainedBytes + terminal.bytes > MAX_TOTAL_RETAINED_BYTES + MAX_TERMINAL_RESERVE_BYTES {
        transport.MarkGap(k);
        return false;
      }
      var buffer := if k in buffers then buffers[k] else Buffer([], 0);
      buffers := buffers[k := Buffer(buffer.records + [terminal], buffer.bytes + terminal.bytes)];
      retainedBytes := retainedBytes + terminal.bytes;
      return true;
    }

    method DeferTerminal(k: Key)
      requires Valid()
      modifies this`deferredTerminalSessions
      ensures Valid() && State() == C.DeferTerminal(old(State()), k)
    {
      if k !in deferredTerminalSessions && |deferredTerminalSessions| < MAX_DEFERRED_TERMINAL_SESSIONS {
        deferredTerminalSessions := deferredTerminalSessions + [k];
      }
    }

    /** `#scheduleFlush` up to the queued flush. */
    method ScheduleFlush(k: Key, force: bool)
      requires Valid()
      modifies this, transport
      ensures Valid() && State() == C.ScheduleFlush(old(State()), k, force)
    {
      var records := if k in buffers then buffers[k].records else [];
      var bufferBytes := if k in buffers then buffers[k].bytes else 0;
      var hasRecords := |records| > 0;
      if !hasRecords && !force {
        return;
      }
      if k !in pendingFlushes && |pendingFlushes| >= MAX_PENDING_FLUSH_SESSIONS {
        SameSize(pendingFlushes, captured);
        if hasRecords {
          var terminal := RetainOnlyTerminal(k);
          transport.MarkGap(k);
          if terminal.Some? {
            DeferTerminal(k);
          }
        }
        return;
      }
      var pending := if k in pendingFlushes then pendingFlushes[k] else 0;
      if pending >= 1 {
        var terminal: Option<Record> := None;
        if hasRecords {
          terminal := RetainOnlyTerminal(k);
          transport.MarkGap(k);
        }
        if !hasRecords || terminal.Some? {
          if k in postPendingGapChecks || |postPendingGapChecks| < MAX_POST_PENDING_GAP_CHECKS {
            postPendingGapChecks := postPendingGapChecks + {k};
          } else if terminal.Some? {
            DeferTerminal(k);
          }
        }
        return;
      }
      SameSize(pendingFlushes, captured);
      if hasRecords {
        buffers := buffers - {k};
      }
      pendingFlushes := pendingFlushes[k := pending + 1];
      captured := captured[k := Flush(records, bufferBytes, Queued)];
    }

    /** The first deferred session without a pending flush, or else any buffered terminal without one. */
    method ScheduleOneDeferredTerminal() returns (ghost pick: Option<Key>)
      requires Valid()
      modifies this, transport
      ensures Valid() && PickOk(old(State()), pick) && State() == ScheduleOneDeferred(old(State()), pick)
    {
      ghost var before := State();
      pick := if k :| AwaitsTerminalFlush(before, k) then Some(k) else None;
      var i := 0;
      while i < |deferredTerminalSessions|
        invariant i <= |deferredTerminalSessions| && Valid() && State() == before
        invariant FirstDeferred(before.deferred, captured.Keys) == FirstDeferred(before.deferred[i..], captured.Keys)
      {
        var k := deferredTerminalSessions[i];
        if k !in pendingFlushes {
          deferredTerminalSessions := Without(deferredTerminalSessions, k);
          ScheduleFlush(k, true);
          return;
        }
        i := i + 1;
      }
      var keys := buffers.Keys;
      while keys != {}
        invariant keys <= buffers.Keys && Valid() && State() == before
        invariant forall k | AwaitsTerminalFlush(before, k) :: k in keys
        decreases keys
      {
        var k :| k in keys;
        var terminal := TerminalControl(buffers[k].records);
        if k !in pendingFlushes && terminal.Some? {
          pick := Some(k);
          ScheduleFlush(k, true);
          return;
        }
        keys := keys - {k};
      }
    }

    /** `#appendRecords`. */
    method AppendRecords(k: Key, records: seq<Record>)
      requires Valid() && forall x <- records :: x.key == k
      modifies this, transport
      ensures Valid() && State() == AppendAll(old(State()), records)
    {
      var i := 0;
      while i < |records|
        invariant i <= |records| && Valid()
        invariant AppendAll(State(), records[i..]) == AppendAll(old(State()), records)
      {
        AppendRecord(records[i]);
        assert records[i..][1..] == records[i + 1..];
        i := i + 1;
      }
    }

    method AppendRecord(record: Record)
      requires Valid()
      modifies this, transport
      ensures Valid() && State() == Append(old(State()), record)
    {
      hide MarkGap, TerminalOf, C.ScheduleFlush, Push, Mark;
      var k := record.key;
      transport.log := Then(transport.log, Took(record));
      var buffer := if k in buffers then Some(buffers[k]) else None;
      if buffer.Some? && |buffer.value.records| > 0 && buffer.value.bytes + record.bytes > MAX_SESSION_BUFFER_BYTES {
        ScheduleFlush(k, false);
        buffer := None;
      }
      AdmitRecord(record, if buffer.Some? then buffer.value else Buffer([], 0));
    }

    /** The rest of one turn of the loop: marked, marked and kept, or kept. */
    method AdmitRecord(record: Record, buffer: Buffer)
      requires Valid()
      modifies this`buffers, this`retainedBytes, transport
      ensures Valid() && State() == Admit(old(State()), record, buffer)
    {
      hide MarkGap;
      var k := record.key;
      var limit := if record.terminal then MAX_TOTAL_RETAINED_BYTES + MAX_TERMINAL_RESERVE_BYTES else MAX_TOTAL_RETAINED_BYTES;
      if retainedBytes + record.bytes > limit {
        transport.MarkGap(k);
        return;
      }
      if record.terminal && retainedBytes + record.bytes > MAX_TOTAL_RETAINED_BYTES {
        transport.MarkGap(k);
      }
      buffers := buffers[k := Buffer(buffer.records + [record], buffer.bytes + record.bytes)];
      retainedBytes := retainedBytes + record.bytes;
    }

    /** The `finally` callback of a flush. */
    method FlushCompleted(k: Key) returns (ghost pick: Option<Key>)
      requires Valid() && k in captured && captured[k].stage.Settled?
      modifies this, transport
      ensures Valid() && PickOk(Release(old(State()), k), pick)
      ensures State() == Complete(old(State()), k, pick)
    {
      hide MarkGap, TerminalOf, C.ScheduleFlush, Release, FirstDeferred, Without, AwaitsTerminalFlush;
      var result := captured[k].stage.result;
      ReleaseFlush(k);
      ghost var released := State();
      pick := if j :| AwaitsTerminalFlush(released, j) then Some(j) else None;
      if k in postPendingGapChecks {
        postPendingGapChecks := postPendingGapChecks - {k};
        ScheduleFlush(k, true);
      } else if result.FullyDelivered? {
        pick := ScheduleOneDeferredTerminal();
      }
    }

    /** The callback up to its own scheduling: bytes released, an unsent terminal restored, the entry removed. */
    method ReleaseFlush(k: Key)
      requires Valid() && k in captured && captured[k].stage.Settled?
      modifies this, transport
      ensures Valid() && State() == Release(old(State()), k)
    {
      hide MarkGap, TerminalOf, C.RestoreTerminal, C.DeferTerminal;
      var flush := captured[k];
      NoRecordsNoTerminal(flush.records);
      if |flush.records| > 0 {
        retainedBytes := retainedBytes - flush.bytes;
        var terminal := TerminalControl(flush.records);
        if terminal.Some? && flush.stage.result.NotStarted? {
          var restored := RestoreTerminal(k, terminal.value);
          if restored {
            DeferTerminal(k);
          }
        }
      }
      pendingFlushes := pendingFlushes - {k};
      captured := captured - {k};
    }

    // ----- the flush between its awaits -----

    /** `flush` up to its first write; the transport's answer decides whether it flies. */
    method FlushBegun(k: Key, build: Option<seq<seq<Event>>>)
      requires Valid() && k in captured
      modifies this`captured, transport
      ensures Valid() && State() == BeginFlush(old(State()), k, build)
    {
      var begun := transport.FlushBegin(k, captured[k].records, false, build);
      captured := captured[k := captured[k].(stage := if begun.Flying? then Writing(begun.flight) else Settled(begun.result))];
    }

    method ChunkStarted(k: Key)
      requires Valid() && Enabled(State(), DoStartChunk(k))
      modifies this`captured, transport
      ensures Valid() && State() == StartChunk(old(State()), k)
    {
      var flight := transport.WriteStart(captured[k].stage.flight);
      captured := captured[k := captured[k].(stage := Writing(flight))];
    }

    method ChunkSettled(k: Key, ok: bool)
      requires Valid() && Enabled(State(), DoSettleChunk(k, ok))
      modifies this`captured, transport
      ensures Valid() && State() == SettleChunk(old(State()), k, ok)
    {
      var flight := transport.WriteSettled(captured[k].stage.flight, ok);
      captured := captured[k := captured[k].(stage := Writing(flight))];
    }

    method FlushFinished(k: Key)
      requires Valid() && Enabled(State(), DoFinish(k))
      modifies this`captured, transport
      ensures Valid() && State() == FinishFlush(old(State()), k)
    {
      var result := transport.FlushFinish(captured[k].stage.flight);
      captured := captured[k := captured[k].(stage := Settled(result))];
    }
  }

  lemma NoRecordsNoTerminal(records: seq<Record>)
    ensures |records| == 0 ==> TerminalOf(records).None?
  {
  }

  lemma SameSize<K, V, W>(m: map<K, V>, n: map<K, W>)
    requires m.Keys == n.Keys
    ensures |m| == |n|
  {
    assert |m| == |m.Keys| && |n| == |n.Keys|;
  }
}
