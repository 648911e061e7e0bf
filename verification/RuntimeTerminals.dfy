/** What the plugin runtime keeps for its terminal records, and whom a completion serves. */
module RuntimeTerminals {
  import opened Util
  import opened Transport
  import opened CaptureRuntime
  import RuntimeTermination

  ghost predicate Keeps(r: Runtime, k: Key, x: Record) {
    || (k in r.buffers && x in r.buffers[k].records)
    || (k in r.inFlight && x in r.inFlight[k].records)
  }

  /** Scheduling drops other records of a full session, never its last terminal. */
  lemma ScheduleKeepsTerminal(r: Runtime, k: Key, force: bool)
    requires TerminalOf(BufferedRecords(r, k)).Some?
    ensures Keeps(ScheduleFlush(r, k, force), k, TerminalOf(BufferedRecords(r, k)).value)
  {
    hide TerminalOf, MarkGap;
    NoTerminalInNothing();
  }

  /** That terminal stays known: in flight, checked after the pending flush, or deferred while there is room for that. */
  lemma ScheduleRemembersTerminal(r: Runtime, k: Key, force: bool)
    requires TerminalOf(BufferedRecords(r, k)).Some?
    ensures var r' := ScheduleFlush(r, k, force);
            || (k in r'.inFlight && TerminalOf(r'.inFlight[k].records) == TerminalOf(BufferedRecords(r, k)))
            || k in r'.postPending || k in r'.deferred || |r'.deferred| >= MAX_DEFERRED_TERMINAL_SESSIONS
    ensures Keeps(ScheduleFlush(r, k, force), k, TerminalOf(BufferedRecords(r, k)).value)
  {
    hide TerminalOf, MarkGap;
    ScheduleKeepsTerminal(r, k, force);
    NoTerminalInNothing();
  }

  lemma NoTerminalInNothing()
    ensures forall records: seq<Record> | |records| == 0 :: TerminalOf(records).None?
  {
  }

  /** The state in which a record's fate is decided: taken in, and an overfull buffer scheduled. */
  function Deciding(r: Runtime, x: Record): Runtime {
    var taken := r.(transport := r.transport.Noting(Took(x)));
    if Overfull(r, x.key, x.bytes) then ScheduleFlush(taken, x.key, false) else taken
  }

  predicate Room(r: Runtime, x: Record) {
    var limit := if x.terminal then MAX_TOTAL_RETAINED_BYTES + MAX_TERMINAL_RESERVE_BYTES else MAX_TOTAL_RETAINED_BYTES;
    Deciding(r, x).retained + x.bytes <= limit
  }

  lemma ScheduleLeavesOthers(r: Runtime, k: Key, force: bool, j: Key)
    requires j != k
    ensures BufferedRecords(ScheduleFlush(r, k, force), j) == BufferedRecords(r, j)
  {
    hide TerminalOf, MarkGap;
  }

  /**
   * A record is appended, last in its session's buffer, exactly when there is
   * room; without room its session is marked as the last thing noted.  No other
   * session's buffer changes.
   */
  lemma AppendedIffRoom(r: Runtime, x: Record)
    ensures Room(r, x) ==>
      BufferedRecords(Append(r, x), x.key) == (if Overfull(r, x.key, x.bytes) then [] else BufferedRecords(r, x.key)) + [x]
    ensures !Room(r, x) ==>
      && Append(r, x).transport.log.Then? && Append(r, x).transport.log.note == Marked(x.key)
      && |BufferedRecords(Append(r, x), x.key)| <= |BufferedRecords(r, x.key)|
    ensures forall j | j != x.key :: BufferedRecords(Append(r, x), j) == BufferedRecords(r, j)
  {
    hide TerminalOf, ScheduleFlush, Admit;
    var decided := Deciding(r, x);
    var taken := r.(transport := r.transport.Noting(Took(x)));
    ScheduleShrinks(taken, x.key);
    forall j | j != x.key
      ensures BufferedRecords(decided, j) == BufferedRecords(r, j)
    {
      ScheduleLeavesOthers(taken, x.key, false, j);
    }
    Admitted(decided, x, if !Overfull(r, x.key, x.bytes) && x.key in decided.buffers then decided.buffers[x.key] else Buffer([], 0));
  }

  lemma Admitted(r: Runtime, x: Record, buffer: Buffer)
    ensures var limit := if x.terminal then MAX_TOTAL_RETAINED_BYTES + MAX_TERMINAL_RESERVE_BYTES else MAX_TOTAL_RETAINED_BYTES;
            var after := Admit(r, x, buffer);
            && (if r.retained + x.bytes <= limit then BufferedRecords(after, x.key) == buffer.records + [x]
                else after == Mark(r, x.key) && after.transport.log == Then(r.transport.log, Marked(x.key)))
            && forall j | j != x.key :: BufferedRecords(after, j) == BufferedRecords(r, j)
  {
  }

  lemma ScheduleShrinks(r: Runtime, k: Key)
    ensures |BufferedRecords(ScheduleFlush(r, k, false), k)| <= |BufferedRecords(r, k)|
  {
    hide TerminalOf, MarkGap;
    NoTerminalInNothing();
  }

  /** A restored terminal is in the buffer, or another one is; it is refused only past the 32 MiB reserve. */
  lemma RestoredOrOverReserve(r: Runtime, k: Key, terminal: Record)
    requires terminal.terminal
    ensures var (r', ok) := RestoreTerminal(r, k, terminal);
            && (ok ==> TerminalOf(BufferedRecords(r', k)).Some?)
            && (!ok ==> r'.retained + terminal.bytes > MAX_TOTAL_RETAINED_BYTES + MAX_TERMINAL_RESERVE_BYTES)
            && (!ok ==> r'.transport.log.Then? && r'.transport.log.note == Marked(k))
  {
    var (r', ok) := RestoreTerminal(r, k, terminal);
    if ok && TerminalOf(BufferedRecords(r, k)).None? {
      TerminalLast(BufferedRecords(r', k), terminal);
    }
  }

  lemma TerminalLast(records: seq<Record>, terminal: Record)
    requires |records| > 0 && records[|records| - 1] == terminal && terminal.terminal
    ensures TerminalOf(records) == Some(terminal)
  {
  }

  /** Something waits that a delivery can serve: a deferred session or a buffered terminal without a pending flush. */
  ghost predicate SomethingWaits(r: Runtime) {
    || (exists j <- r.deferred :: j !in r.inFlight)
    || (exists j :: AwaitsTerminalFlush(r, j))
  }

  lemma {:induction false} FirstDeferredIff(deferred: seq<Key>, pending: set<Key>)
    ensures FirstDeferred(deferred, pending).Some? <==> exists j <- deferred :: j !in pending
    ensures var first := FirstDeferred(deferred, pending); first.Some? ==> first.value !in pending
  {
    if |deferred| > 0 {
      FirstDeferredIff(deferred[1..], pending);
      assert forall j <- deferred :: j == deferred[0] || j in deferred[1..];
      assert forall j <- deferred[1..] :: j in deferred;
      assert deferred[0] in deferred;
    }
  }

  /**
   * Whom a completion serves: a session that asked for a check gets its flush
   * at once; otherwise a full delivery starts a flush for somebody who waits,
   * whenever anybody does; no other flush is started.
   */
  lemma CompletionServes(r: Runtime, k: Key, pick: Option<Key>)
    requires |r.inFlight| <= MAX_PENDING_FLUSH_SESSIONS
    requires k in r.inFlight && r.inFlight[k].stage.Settled? && PickOk(Release(r, k), pick)
    ensures var released, after := Release(r, k), Complete(r, k, pick);
            if k in released.postPending then k in after.inFlight && k !in after.postPending
            else if r.inFlight[k].stage.result.FullyDelivered? && SomethingWaits(released) then
              exists j :: j !in released.inFlight && after.inFlight.Keys == released.inFlight.Keys + {j}
            else after == released
  {
    hide Release, StartFlush, ScheduleFlush, FirstDeferred, Without, TerminalOf;
    RuntimeTermination.ReleaseBacklog(r, k);
    var released := Release(r, k);
    if k in released.postPending {
      var checked := released.(postPending := released.postPending - {k});
      RuntimeTermination.ForcedScheduleStarts(checked, k);
      Starts(checked, k);
    } else if r.inFlight[k].stage.result.FullyDelivered? {
      FirstDeferredIff(released.deferred, released.inFlight.Keys);
      var first := FirstDeferred(released.deferred, released.inFlight.Keys);
      if first.Some? {
        var taken := released.(deferred := Without(released.deferred, first.value));
        RuntimeTermination.ForcedScheduleStarts(taken, first.value);
        Starts(taken, first.value);
      } else if pick.Some? {
        RuntimeTermination.ForcedScheduleStarts(released, pick.value);
        Starts(released, pick.value);
      }
    }
  }

  lemma Starts(r: Runtime, k: Key)
    ensures StartFlush(r, k).inFlight.Keys == r.inFlight.Keys + {k} && StartFlush(r, k).postPending == r.postPending
  {
  }
}
