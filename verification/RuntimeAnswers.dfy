/** What the plugin runtime does when it can do what it is asked. */
module RuntimeAnswers {
  // Records that fit stay where they are, full buffers leave, flushes that may
  // start do, and terminals that could not leave are looked at again.

  import opened Util
  import opened Transport
  import opened CaptureRuntime
  import opened RuntimeDelivery

  function Bytes(r: Runtime, k: Key): nat {
    if k in r.buffers then r.buffers[k].bytes else 0
  }

  /** The last terminal of a list, if there is one. */
  predicate LastTerminal(records: seq<Record>, x: Record) {
    exists i :: 0 <= i < |records| && records[i] == x && x.terminal && forall j | i < j < |records| :: !records[j].terminal
  }

  lemma LastTerminalFront(records: seq<Record>, x: Record)
    requires |records| > 0 && !records[|records| - 1].terminal && LastTerminal(records[..|records| - 1], x)
    ensures LastTerminal(records, x)
  {
    var front := records[..|records| - 1];
    var i :| 0 <= i < |front| && front[i] == x && x.terminal && forall j | i < j < |front| :: !front[j].terminal;
    assert records[i] == x;
    forall j | i < j < |records|
      ensures !records[j].terminal
    {
      if j < |front| {
        assert front[j] == records[j];
      }
    }
  }

  lemma LastTerminalEnd(records: seq<Record>)
    requires |records| > 0 && records[|records| - 1].terminal
    ensures LastTerminal(records, records[|records| - 1])
  {
  }

  lemma {:induction false} TerminalIsTheLast(records: seq<Record>)
    ensures TerminalOf(records).Some? ==> LastTerminal(records, TerminalOf(records).value)
  {
    if |records| > 0 {
      hide LastTerminal;
      if records[|records| - 1].terminal {
        LastTerminalEnd(records);
      } else {
        TerminalIsTheLast(records[..|records| - 1]);
        if TerminalOf(records).Some? {
          LastTerminalFront(records, TerminalOf(records).value);
        }
      }
    }
  }

  // ----- scheduling -----

  /** A flush that may start does: all that is buffered is in flight, and nothing is marked. */
  lemma ScheduleStarts(r: Runtime, k: Key, force: bool)
    requires k !in r.inFlight && |r.inFlight| < 64 && (|BufferedRecords(r, k)| > 0 || force)
    ensures var r' := ScheduleFlush(r, k, force);
            && r'.inFlight == r.inFlight[k := Flush(BufferedRecords(r, k), Bytes(r, k), Queued)]
            && BufferedRecords(r', k) == [] && (forall j | j != k :: Get(r'.buffers, j) == Get(r.buffers, j))
            && r'.transport == r.transport && r'.retained == r.retained
            && r'.postPending == r.postPending && r'.deferred == r.deferred
  {
    hide TerminalOf, MarkGap;
  }

  /** Nothing buffered and nothing forced: nothing happens. */
  lemma ScheduleIdle(r: Runtime, k: Key)
    requires |BufferedRecords(r, k)| == 0
    ensures ScheduleFlush(r, k, false) == r
  {
    hide TerminalOf;
  }

  /** What a buffer that cannot leave keeps: its last terminal alone. */
  ghost predicate OnlyTerminalKept(r: Runtime, r': Runtime, k: Key) {
    && (forall j | j != k :: Get(r'.buffers, j) == Get(r.buffers, j))
    && ((forall x <- BufferedRecords(r, k) :: !x.terminal) ==> k !in r'.buffers)
    && ((exists x <- BufferedRecords(r, k) :: x.terminal) ==>
          exists x :: LastTerminal(BufferedRecords(r, k), x) && Get(r'.buffers, k) == Some(Buffer([x], x.bytes)))
  }

  /** Behind a pending flush the buffer keeps its terminal, is marked once, and is looked at again after it if there is a terminal. */
  lemma ScheduleBehind(r: Runtime, k: Key, force: bool)
    requires k in r.inFlight && |BufferedRecords(r, k)| > 0
    ensures var r' := ScheduleFlush(r, k, force);
            var terminal := exists x <- BufferedRecords(r, k) :: x.terminal;
            && r'.inFlight == r.inFlight && OnlyTerminalKept(r, r', k) && r'.transport == MarkGap(r.transport, k)
            && r'.postPending == (if terminal && (k in r.postPending || |r.postPending| < 256) then r.postPending + {k} else r.postPending)
            && r'.deferred == (if terminal && k !in r.postPending && |r.postPending| >= 256 && k !in r.deferred && |r.deferred| < 256
                               then r.deferred + [k] else r.deferred)
  {
    hide TerminalOf, MarkGap;
    TerminalIsTheLast(BufferedRecords(r, k));
  }

  /** A flush forced behind a pending one with nothing buffered is looked at again after it. */
  lemma ScheduleBehindEmpty(r: Runtime, k: Key)
    requires k in r.inFlight && |BufferedRecords(r, k)| == 0
    ensures var r' := ScheduleFlush(r, k, true);
            && r'.inFlight == r.inFlight && r'.buffers == r.buffers && r'.transport == r.transport && r'.deferred == r.deferred
            && r'.postPending == (if k in r.postPending || |r.postPending| < 256 then r.postPending + {k} else r.postPending)
  {
    hide MarkGap;
  }

  /** With 64 flushes pending the buffer keeps its terminal, is marked once, and its session is deferred for it. */
  lemma ScheduleFull(r: Runtime, k: Key, force: bool)
    requires k !in r.inFlight && |r.inFlight| >= 64
    ensures var r' := ScheduleFlush(r, k, force);
            if |BufferedRecords(r, k)| == 0 then r' == r
            else
              var terminal := exists x <- BufferedRecords(r, k) :: x.terminal;
              && r'.inFlight == r.inFlight && OnlyTerminalKept(r, r', k) && r'.transport == MarkGap(r.transport, k)
              && r'.postPending == r.postPending
              && r'.deferred == (if terminal && k !in r.deferred && |r.deferred| < 256 then r.deferred + [k] else r.deferred)
  {
    hide TerminalOf, MarkGap;
    TerminalIsTheLast(BufferedRecords(r, k));
  }

  // ----- appending -----

  /** A record that fits its buffer and the memory joins it, last; nothing else moves and nothing is marked. */
  lemma AppendFits(r: Runtime, x: Record)
    requires |BufferedRecords(r, x.key)| == 0 || Bytes(r, x.key) + x.bytes <= 512 * 1024
    requires r.retained + x.bytes <= 16 * 1024 * 1024
    requires |BufferedRecords(r, x.key)| == 0 ==> Bytes(r, x.key) == 0
    ensures var r' := Append(r, x);
            && r'.buffers == r.buffers[x.key := Buffer(BufferedRecords(r, x.key) + [x], Bytes(r, x.key) + x.bytes)]
            && r'.retained == r.retained + x.bytes && r'.inFlight == r.inFlight
            && r'.postPending == r.postPending && r'.deferred == r.deferred
            && r'.transport == r.transport.Noting(Took(x))
  {
    hide ScheduleFlush, TerminalOf, MarkGap;
  }

  /** A record its buffer has no room for sends the buffer off, and starts the next one; nothing is marked. */
  lemma AppendSendsOff(r: Runtime, x: Record)
    requires |BufferedRecords(r, x.key)| > 0 && Bytes(r, x.key) + x.bytes > 512 * 1024
    requires x.key !in r.inFlight && |r.inFlight| < 64 && r.retained + x.bytes <= 16 * 1024 * 1024
    ensures var r' := Append(r, x);
            && r'.inFlight == r.inFlight[x.key := Flush(BufferedRecords(r, x.key), Bytes(r, x.key), Queued)]
            && Get(r'.buffers, x.key) == Some(Buffer([x], x.bytes))
            && (forall j | j != x.key :: Get(r'.buffers, j) == Get(r.buffers, j))
            && r'.retained == r.retained + x.bytes && r'.transport == r.transport.Noting(Took(x))
            && r'.postPending == r.postPending && r'.deferred == r.deferred
  {
    hide ScheduleFlush, TerminalOf, MarkGap;
    var r0 := r.(transport := r.transport.Noting(Took(x)));
    ScheduleStarts(r0, x.key, false);
    assert [] + [x] == [x];
  }

  /** Of a terminal the ordinary memory has no room for: kept and marked, within the reserve. */
  lemma AppendTerminalInReserve(r: Runtime, x: Record)
    requires x.terminal && (|BufferedRecords(r, x.key)| == 0 || Bytes(r, x.key) + x.bytes <= 512 * 1024)
    requires |BufferedRecords(r, x.key)| == 0 ==> Bytes(r, x.key) == 0
    requires 16 * 1024 * 1024 < r.retained + x.bytes <= 32 * 1024 * 1024
    ensures var r' := Append(r, x);
            && r'.buffers == r.buffers[x.key := Buffer(BufferedRecords(r, x.key) + [x], Bytes(r, x.key) + x.bytes)]
            && r'.inFlight == r.inFlight && r'.transport == MarkGap(r.transport.Noting(Took(x)), x.key)
  {
    hide ScheduleFlush, TerminalOf, MarkGap;
  }

  // ----- the end of a flush -----

  /** A terminal whose flush handed nothing over goes back, last, behind what has been buffered since. */
  lemma RestoreFits(r: Runtime, k: Key, terminal: Record)
    requires forall x <- BufferedRecords(r, k) :: !x.terminal
    requires |BufferedRecords(r, k)| == 0 || Bytes(r, k) + terminal.bytes <= 512 * 1024
    requires |BufferedRecords(r, k)| == 0 ==> Bytes(r, k) == 0
    requires r.retained + terminal.bytes <= 32 * 1024 * 1024
    ensures var (r', ok) := RestoreTerminal(r, k, terminal);
            && ok && r'.buffers == r.buffers[k := Buffer(BufferedRecords(r, k) + [terminal], Bytes(r, k) + terminal.bytes)]
            && r'.retained == r.retained + terminal.bytes && r'.inFlight == r.inFlight
            && r'.postPending == r.postPending && r'.deferred == r.deferred && r'.transport == r.transport
  {
    hide TerminalOf, MarkGap;
  }

  /** A terminal is there already: nothing moves. */
  lemma RestoreIdle(r: Runtime, k: Key, terminal: Record)
    requires exists x <- BufferedRecords(r, k) :: x.terminal
    ensures RestoreTerminal(r, k, terminal) == (r, true)
  {
    hide TerminalOf;
  }

  lemma LastTerminalIs(records: seq<Record>, x: Record)
    requires LastTerminal(records, x)
    ensures TerminalOf(records) == Some(x)
  {
    TerminalIsTheLast(records);
    hide TerminalOf;
    var i :| 0 <= i < |records| && records[i] == x && x.terminal && forall j | i < j < |records| :: !records[j].terminal;
    assert records[i] in records;
    var y := TerminalOf(records).value;
    var j :| 0 <= j < |records| && records[j] == y && y.terminal && forall l | j < l < |records| :: !records[l].terminal;
  }

  /**
   * The completion of a flush that handed nothing over: its last terminal is
   * buffered again, or another one is, or the 32 MiB are used up; and unless they
   * are, its session is flushed again at once or deferred, while there is room.
   */
  lemma UnsentComesBack(r: Runtime, k: Key, x: Record, pick: Option<Key>)
    requires k in r.inFlight && r.inFlight[k].stage == Settled(NotStarted) && LastTerminal(r.inFlight[k].records, x)
    requires |r.inFlight| <= 64
    ensures var r' := Complete(r, k, pick);
            || (k in r'.inFlight && exists y <- r'.inFlight[k].records :: y.terminal)
            || ((exists y <- BufferedRecords(r', k) :: y.terminal) && (k in r'.deferred || |r'.deferred| >= 256))
            || r'.retained + x.bytes > 32 * 1024 * 1024
  {
    hide TerminalOf, MarkGap, ScheduleFlush, RestoreTerminal, FirstDeferred, Without;
    LastTerminalIs(r.inFlight[k].records, x);
    var f := r.inFlight[k];
    var r1 := if |f.records| > 0 then r.(retained := r.retained - f.bytes) else r;
    RestoreHolds(r1, k, x);
    var released := Release(r, k);
    if k in released.postPending {
      ScheduleStarts(released.(postPending := released.postPending - {k}), k, true);
    }
  }

  lemma RestoreHolds(r: Runtime, k: Key, terminal: Record)
    requires terminal.terminal
    ensures var (r', ok) := RestoreTerminal(r, k, terminal);
            && (ok ==> exists y <- BufferedRecords(r', k) :: y.terminal)
            && (!ok ==> r'.retained + terminal.bytes > 32 * 1024 * 1024)
            && r'.inFlight == r.inFlight && r'.postPending == r.postPending && r'.deferred == r.deferred
  {
    hide TerminalOf, MarkGap;
    var (r', ok) := RestoreTerminal(r, k, terminal);
    if ok && TerminalOf(BufferedRecords(r, k)).None? {
      assert BufferedRecords(r', k)[|BufferedRecords(r', k)| - 1] == terminal;
    }
  }

  /** The session that is served: the first deferred one without a pending flush. */
  ghost predicate FirstWaiting(deferred: seq<Key>, pending: set<Key>, j: Key) {
    exists i :: 0 <= i < |deferred| && deferred[i] == j && j !in pending && forall h | 0 <= h < i :: deferred[h] in pending
  }

  lemma {:induction false} FirstIsEarliest(deferred: seq<Key>, pending: set<Key>)
    ensures FirstDeferred(deferred, pending).Some? ==> FirstWaiting(deferred, pending, FirstDeferred(deferred, pending).value)
    ensures FirstDeferred(deferred, pending).None? ==> forall j <- deferred :: j in pending
  {
    if |deferred| > 0 {
      FirstIsEarliest(deferred[1..], pending);
      if deferred[0] in pending && FirstDeferred(deferred[1..], pending).Some? {
        var j := FirstDeferred(deferred[1..], pending).value;
        var i :| 0 <= i < |deferred[1..]| && deferred[1..][i] == j && forall h | 0 <= h < i :: deferred[1..][h] in pending;
        assert deferred[i + 1] == j;
        assert forall h | 0 <= h < i + 1 :: h > 0 ==> deferred[h] == deferred[1..][h - 1];
      } else if deferred[0] !in pending {
        assert deferred[0] == FirstDeferred(deferred, pending).value;
      } else {
        assert forall j <- deferred :: j == deferred[0] || j in deferred[1..];
      }
    }
  }

  /**
   * After a full delivery, deferred sessions go first, in the order they were
   * deferred; a buffered terminal goes only when none of them can; and the
   * session served has everything it had buffered in flight.
   */
  lemma ServesInOrder(r: Runtime, k: Key, pick: Option<Key>)
    requires |r.inFlight| <= 64 && k in r.inFlight && r.inFlight[k].stage == Settled(FullyDelivered)
    requires k !in r.postPending && PickOk(Release(r, k), pick)
    ensures var was, now := Release(r, k), Complete(r, k, pick);
            if j :| FirstWaiting(was.deferred, was.inFlight.Keys, j) then
              && now.inFlight == was.inFlight[j := Flush(BufferedRecords(was, j), Bytes(was, j), Queued)]
              && now.deferred == Without(was.deferred, j) && BufferedRecords(now, j) == []
            else if exists j :: AwaitsTerminalFlush(was, j) then
              exists j :: AwaitsTerminalFlush(was, j)
                && now.inFlight == was.inFlight[j := Flush(BufferedRecords(was, j), Bytes(was, j), Queued)]
                && now.deferred == was.deferred
            else now == was
  {
    hide TerminalOf, MarkGap, ScheduleFlush, FirstDeferred, Without;
    var was := Release(r, k);
    DeliveredRelease(r, k);
    FirstIsEarliest(was.deferred, was.inFlight.Keys);
    var first := FirstDeferred(was.deferred, was.inFlight.Keys);
    if first.Some? {
      FirstIsUnique(was.deferred, was.inFlight.Keys, first.value);
      ScheduleStarts(was.(deferred := Without(was.deferred, first.value)), first.value, true);
    } else if pick.Some? {
      ScheduleStarts(was, pick.value, true);
    }
  }

  lemma FirstIsUnique(deferred: seq<Key>, pending: set<Key>, j: Key)
    requires FirstWaiting(deferred, pending, j)
    ensures forall h :: FirstWaiting(deferred, pending, h) ==> h == j
  {
    var i :| 0 <= i < |deferred| && deferred[i] == j && j !in pending && forall h | 0 <= h < i :: deferred[h] in pending;
    forall h | FirstWaiting(deferred, pending, h)
      ensures h == j
    {
      var l :| 0 <= l < |deferred| && deferred[l] == h && h !in pending && forall g | 0 <= g < l :: deferred[g] in pending;
      assert l >= i;
      assert i >= l;
    }
  }

  lemma DeliveredRelease(r: Runtime, k: Key)
    requires |r.inFlight| <= 64 && k in r.inFlight && r.inFlight[k].stage == Settled(FullyDelivered)
    ensures var was := Release(r, k);
            && was.postPending == r.postPending && was.deferred == r.deferred && was.buffers == r.buffers
            && was.inFlight == r.inFlight - {k} && |was.inFlight| < 64
  {
    hide TerminalOf, MarkGap, RestoreTerminal;
    var was := Release(r, k);
    assert was.inFlight == r.inFlight - {k};
    assert r.inFlight.Keys == was.inFlight.Keys + {k};
  }
}
