/**
 * Each operation of the plugin runtime on its tables keeps the history
 * invariant: what leaves a buffer goes in flight or is marked as a gap.
 *
 * The proofs follow the source's order: retaining a terminal, restoring one,
 * deferring one, scheduling with its three outcomes, and the turn of the append
 * loop.  Each lemma says which records are still owed after the operation and
 * that every one of them is held; the quantified parts of the invariant are
 * hidden and carried over record by record.
 */
module RuntimeTables {
  import opened Util
  import opened Transport
  import opened CaptureRuntime
  import opened RuntimeHistory

  /** A transport step that hands nothing over and takes nothing in. */
  ghost predicate Onward(t: State, t': State) {
    && StateOk(t') && t'.generation >= t.generation && t'.active == t.active
    && Taken(t'.log) == Taken(t.log) && HandedRecords(t'.log) == HandedRecords(t.log)
    && (LogOk(t.log) ==> LogOk(t'.log))
    && ConfirmedRecords(t'.log) == ConfirmedRecords(t.log)
    && Unaccounted(t'.log) <= Unaccounted(t.log)
  }

  ghost predicate SameElsewhere(r: Runtime, r': Runtime, k: Key) {
    r'.inFlight == r.inFlight && forall j | j != k :: Get(r'.buffers, j) == Get(r.buffers, j)
  }

  ghost predicate NothingOwed(r: Runtime, k: Key) {
    forall x <- Unaccounted(r.transport.log) :: x.key != k
  }

  lemma MarkOnward(t: State, k: Key)
    requires StateOk(t)
    ensures Onward(t, MarkGap(t, k))
    ensures forall x <- Unaccounted(MarkGap(t, k).log) :: x.key != k
  {
    MarkOk(t, k);
    hide StateOk;
    assert MarkGap(t, k).log == Then(t.log, Marked(k));
  }

  /** The invariant only reads the buffers, the flushes in flight and the transport. */
  lemma TablesDecide(r: Runtime, r': Runtime)
    requires r'.buffers == r.buffers && r'.inFlight == r.inFlight && r'.transport == r.transport
    ensures CoreOk(r) ==> CoreOk(r')
    ensures forall record, k :: HeldBut(r, record, k) ==> HeldBut(r', record, k)
    ensures forall x :: HeldBy(r', x) <==> HeldBy(r, x)
  {
  }

  lemma FlushStaysOk(k: Key, f: Flush, t: State, t': State)
    requires FlushOk(k, f, t) && Onward(t, t')
    ensures FlushOk(k, f, t')
  {
    hide StateOk, ValidBuild, RecordsFrom, Unaccounted, Taken, HandedRecords;
  }

  /** One buffer replaced, the transport moved on. */
  lemma BufferChange(r: Runtime, r': Runtime, k: Key)
    requires CoreOk(r) && SameElsewhere(r, r', k) && Onward(r.transport, r'.transport)
    requires k in r'.buffers ==> BufferOk(k, r'.buffers[k], r.transport.log)
    requires k in r'.buffers && k in r.inFlight ==> Apart(r'.buffers[k], r.inFlight[k])
    ensures CoreOk(r')
  {
    hide FlushOk, StateOk, LogOk, ConfirmedRecords, HandedRecords, Taken, Unaccounted, Apart, WritingKeys;
    assert TransportOk(r');
    forall j <- r'.buffers
      ensures BufferOk(j, r'.buffers[j], r'.transport.log)
      ensures j in r'.inFlight ==> Apart(r'.buffers[j], r'.inFlight[j])
    {
      assert j != k ==> Get(r'.buffers, j) == Get(r.buffers, j);
    }
    forall j <- r'.inFlight
      ensures FlushOk(j, r'.inFlight[j], r'.transport)
    {
      FlushStaysOk(j, r.inFlight[j], r.transport, r'.transport);
    }
  }

  /** Whatever happened to the buffer of `k`, once `k` is marked nothing of it is owed. */
  lemma MarkPays(r: Runtime, r': Runtime, k: Key, record: Option<Record>)
    requires HeldBut(r, record, Some(k)) && SameElsewhere(r, r', k)
    requires StateOk(r.transport) && r'.transport == MarkGap(r.transport, k)
    ensures HeldBut(r', record, None) && NothingOwed(r', k)
  {
    MarkOnward(r.transport, k);
    hide MarkGap, StateOk, Unaccounted, HandedRecords, Taken, LogOk, ConfirmedRecords;
    forall x <- Unaccounted(r'.transport.log) | Some(x) != record
      ensures HeldBy(r', x)
    {
      assert HeldBy(r, x);
      assert Get(r'.buffers, x.key) == Get(r.buffers, x.key);
    }
  }

  lemma HeldButMore(r: Runtime, record: Option<Record>, k: Key)
    requires HeldBut(r, record, None)
    ensures HeldBut(r, record, Some(k))
  {
  }

  // ----- buffers that shrink -----

  lemma MarkOnly(r: Runtime, k: Key, record: Option<Record>)
    requires CoreOk(r) && HeldBut(r, record, None)
    ensures CoreOk(Mark(r, k)) && HeldBut(Mark(r, k), record, None) && NothingOwed(Mark(r, k), k)
    ensures Onward(r.transport, Mark(r, k).transport)
  {
    hide MarkGap, CoreOk, HeldBut, NothingOwed, HeldBy, Onward;
    CoreParts(r);
    MarkOnward(r.transport, k);
    HeldButMore(r, record, k);
    MarkPays(r, Mark(r, k), k, record);
    CoreBuffer(r, k);
    BufferChange(r, Mark(r, k), k);
  }

  lemma CoreParts(r: Runtime)
    requires CoreOk(r)
    ensures StateOk(r.transport)
  {
  }

  lemma CoreBuffer(r: Runtime, k: Key)
    requires CoreOk(r)
    ensures k in r.buffers ==> BufferOk(k, r.buffers[k], r.transport.log)
    ensures k in r.inFlight ==> FlushOk(k, r.inFlight[k], r.transport)
    ensures k in r.buffers && k in r.inFlight ==> Apart(r.buffers[k], r.inFlight[k])
  {
  }

  lemma RetainMarked(r: Runtime, k: Key, record: Option<Record>)
    requires CoreOk(r) && HeldBut(r, record, None) && k in r.buffers
    ensures var r' := Mark(RetainOnlyTerminal(r, k), k);
            && CoreOk(r') && HeldBut(r', record, None) && NothingOwed(r', k)
            && Onward(r.transport, r'.transport) && r'.inFlight == r.inFlight
            && forall x :: HeldBy(r', x) ==> HeldBy(r, x)
  {
    hide MarkGap, CoreOk, HeldBut, NothingOwed, TerminalOf, Onward, HandedRecords, Taken;
    CoreParts(r);
    CoreBuffer(r, k);
    HeldButMore(r, record, k);
    MarkOnward(r.transport, k);
    var r' := Mark(RetainOnlyTerminal(r, k), k);
    assert SameElsewhere(r, r', k);
    MarkPays(r, r', k, record);
    BufferChange(r, r', k);
  }

  lemma DropMarked(r: Runtime, k: Key, record: Option<Record>)
    requires CoreOk(r) && HeldBut(r, record, None) && k in r.buffers
    ensures var r' := Mark(DropBuffer(r, k), k);
            && CoreOk(r') && HeldBut(r', record, None) && Onward(r.transport, r'.transport)
            && forall x :: HeldBy(r', x) ==> HeldBy(r, x)
  {
    hide MarkGap, CoreOk, HeldBut, NothingOwed, TerminalOf, Onward;
    CoreParts(r);
    HeldButMore(r, record, k);
    MarkOnward(r.transport, k);
    var r' := Mark(DropBuffer(r, k), k);
    MarkPays(r, r', k, record);
    BufferChange(r, r', k);
  }

  // ----- a buffer that grows -----

  lemma PushOk(r: Runtime, x: Record, onto: Buffer, record: Option<Record>)
    requires CoreOk(r) && HeldBut(r, record, None) && (record.Some? ==> record.value == x)
    requires Belongs(x, x.key, r.transport.log) && x !in HandedRecords(r.transport.log) && !HeldBy(r, x)
    requires if x.key in r.buffers && onto == r.buffers[x.key] then true
             else |onto.records| == 0 && (x.key in r.buffers ==> OnlyInFlight(r, x.key, record))
    ensures CoreOk(Push(r, x.key, x, onto)) && HeldBut(Push(r, x.key, x, onto), None, None)
  {
    hide CoreOk, HandedRecords, Taken, Unaccounted, LogOk, ConfirmedRecords, FlushOk, StateOk;
    CoreParts(r);
    CoreBuffer(r, x.key);
    StayOnward(r.transport);
    var r' := Push(r, x.key, x, onto);
    BufferChange(r, r', x.key);
    forall y <- Unaccounted(r'.transport.log)
      ensures HeldBy(r', y)
    {
      if y == x {
        assert r'.buffers[x.key].records[|onto.records|] == x;
      } else {
        assert HeldBy(r, y);
        PushKeeps(onto.records, x, y);
      }
    }
  }

  lemma PushKeeps(records: seq<Record>, x: Record, y: Record)
    ensures y in records ==> y in records + [x]
  {
  }

  lemma StayOnward(t: State)
    requires StateOk(t)
    ensures Onward(t, t)
  {
  }

  /** What `k` is still owed, one record aside, is all in flight. */
  ghost predicate OnlyInFlight(r: Runtime, k: Key, record: Option<Record>) {
    forall x <- Unaccounted(r.transport.log) ::
      x.key == k && Some(x) != record ==> k in r.inFlight && x in r.inFlight[k].records
  }

  // ----- a flush that starts -----

  /** A flush that just left its buffer has handed nothing over. */
  lemma QueuedFlushOk(r: Runtime, k: Key)
    requires CoreOk(r)
    ensures FlushOk(k, StartFlush(r, k).inFlight[k], r.transport)
  {
    hide HandedRecords, Taken, Unaccounted, LogOk, ConfirmedRecords, StateOk, TransportOk, FlightFits;
    CoreBuffer(r, k);
  }

  lemma StartFlushOk(r: Runtime, k: Key, record: Option<Record>)
    requires CoreOk(r) && HeldBut(r, record, None) && k !in r.inFlight
    ensures var r' := StartFlush(r, k);
            && CoreOk(r') && HeldBut(r', record, None) && r'.transport == r.transport
            && OnlyInFlight(r', k, record)
            && forall x :: HeldBy(r', x) ==> HeldBy(r, x)
  {
    hide HandedRecords, Taken, Unaccounted, LogOk, ConfirmedRecords, StateOk, FlushOk, BufferOk;
    var r' := StartFlush(r, k);
    assert BufferedRecords(r, k) == r'.inFlight[k].records;
    QueuedFlushOk(r, k);
    assert WritingKeys(r'.inFlight) == WritingKeys(r.inFlight);
  }

  /** `#scheduleFlush`: what it takes out of the buffer goes in flight or is marked. */
  lemma ScheduleOk(r: Runtime, k: Key, force: bool, record: Option<Record>)
    requires CoreOk(r) && HeldBut(r, record, None)
    ensures var r' := ScheduleFlush(r, k, force);
            && CoreOk(r') && HeldBut(r', record, None) && Onward(r.transport, r'.transport)
            && (|BufferedRecords(r, k)| > 0 ==> OnlyInFlight(r', k, record))
            && forall x :: HeldBy(r', x) ==> HeldBy(r, x)
  {
    hide CoreOk, HeldBut, Onward, HeldBy, TerminalOf, MarkGap, StartFlush, RetainOnlyTerminal, NothingOwed, OnlyInFlight;
    CoreParts(r);
    StayOnward(r.transport);
    if k !in r.inFlight {
      StartFlushOk(r, k, record);
    }
    if k in r.buffers {
      RetainMarked(r, k, record);
      var marked := Mark(RetainOnlyTerminal(r, k), k);
      NothingOwedInFlight(marked, k, record);
      CheckTables(marked, k, TerminalOf(BufferedRecords(r, k)).Some?, record);
    }
    CheckTables(r, k, false, record);
  }

  lemma NothingOwedInFlight(r: Runtime, k: Key, record: Option<Record>)
    requires NothingOwed(r, k)
    ensures OnlyInFlight(r, k, record)
  {
  }

  /** Deferring a session and noting a check after the pending flush leave the invariant alone. */
  lemma CheckTables(r: Runtime, k: Key, hasTerminal: bool, record: Option<Record>)
    requires CoreOk(r) && HeldBut(r, record, None)
    ensures forall r' | r' in {DeferTerminal(r, k), CheckAfterPending(r, k, hasTerminal)} ::
              && CoreOk(r') && HeldBut(r', record, None) && r'.transport == r.transport
              && (OnlyInFlight(r, k, record) ==> OnlyInFlight(r', k, record))
              && forall x :: HeldBy(r', x) <==> HeldBy(r, x)
  {
    hide CoreOk, HeldBut, HeldBy;
    TablesDecide(r, DeferTerminal(r, k));
    TablesDecide(r, CheckAfterPending(r, k, hasTerminal));
  }
}
