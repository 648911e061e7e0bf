/** What the Pi extension makes of each callback. */
module PiExtensionAnswers {
  // A matching event is reduced and what the reducer says of it is taken in; a
  // mismatch is degraded; a boundary empties the buffer; and a flush whose chunks
  // can be built and are all confirmed is delivered and marks nothing.

  import opened Util
  import opened Transport
  import C = CaptureRuntime
  import RuntimeBytes
  import RuntimeDelivery
  import opened PiExtension
  import opened PiExtensionRuns
  import P = PiReducer
  import PiGrammar
  import PiRuns
  import PiAnswers

  // ----- a flush that goes well -----

  /** The launcher confirms whatever it is given. */
  ghost predicate AlwaysOk(world: World) {
    forall h, n :: world.ok(h, n)
  }

  lemma {:induction false} WriteAllWell(t: State, f: Flight, world: World, k: Key)
    requires !f.writing && f.next <= |f.chunks| && f.delivered == f.started == f.next
    requires t.active < 4 && AlwaysOk(world)
    ensures var (t', end) := WriteAll(t, f, world);
            && end == f.(next := |f.chunks|, started := |f.chunks|, delivered := |f.chunks|)
            && t'.pending == t.pending && t'.active == t.active && t'.generation == t.generation
            && RuntimeDelivery.Marks(t'.log, k) == RuntimeDelivery.Marks(t.log, k)
    decreases |f.chunks| - f.next
  {
    if f.next < |f.chunks| {
      var (t1, f1) := StartWrite(t, f);
      assert f1.writing;
      var (t2, f2) := SettleWrite(t1, f1, world.ok(t1.log, f1.next));
      WriteAllWell(t2, f2, world, k);
    }
  }

  /**
   * With a permit free, chunks that can be built and a launcher that confirms,
   * a flush of records of its window is delivered: the delivery of the records is
   * its last note, no gap is marked, and none of its window is pending.
   */
  lemma FlushAllDelivers(t: State, k: Key, records: seq<Record>, force: bool, world: World, j: Key)
    requires t.active < 4 && ValidKey(k) && (forall x <- records :: x.key == k)
    requires AlwaysOk(world) && WorldOk(world)
    requires (|records| > 0 || k in t.pending || t.poisoned || force) && world.build(t.log, EventsFor(t, k, records)).Some?
    ensures var (t', result) := FlushAll(t, k, records, force, world);
            && result.FullyDelivered? && k !in t'.pending && t'.active == t.active
            && t'.log.Then? && t'.log.note.Delivered? && t'.log.note.records == records
            && RuntimeDelivery.Marks(t'.log, j) == RuntimeDelivery.Marks(t.log, j)
  {
    hide MarkGap, ValidBuild, ValidKey;
    var build := world.build(t.log, EventsFor(t, k, records));
    BuiltChunks(world, t.log, EventsFor(t, k, records));
    var (t1, begun) := Begin(t, k, records, force, build);
    assert begun.Flying? && t1 == t;
    WriteAllWell(t, begun.flight, world, j);
  }

  lemma BuiltChunks(world: World, h: History, events: seq<Event>)
    requires WorldOk(world) && world.build(h, events).Some?
    ensures |world.build(h, events).value| > 0
  {
  }

  /** With every permit taken all chunks are refused. */
  lemma {:induction false} WriteAllRefused(t: State, f: Flight, world: World)
    requires !f.writing && f.next <= |f.chunks| && t.active >= 4
    ensures WriteAll(t, f, world) == (t, f.(next := |f.chunks|))
    decreases |f.chunks| - f.next
  {
    if f.next < |f.chunks| {
      WriteAllRefused(t, f.(next := f.next + 1), world);
    }
  }

  lemma {:induction false} TerminalsAre(records: seq<Record>)
    ensures forall x :: x in Terminals(records) <==> x in records && x.terminal
  {
    if |records| > 0 {
      TerminalsAre(records[1..]);
      assert forall x :: x in records <==> x == records[0] || x in records[1..];
    }
  }

  /** A flush of records of its window that gets no permit leaves the terminals buffered, and only them. */
  lemma FlushRefused(t: State, a: Active, force: bool, world: World)
    requires t.active >= 4 && WorldOk(world) && ValidKey(KeyOf(a.reducer.coordinates)) && |a.records| > 0
    requires forall x <- a.records :: x.key == KeyOf(a.reducer.coordinates)
    requires world.build(t.log, EventsFor(t, KeyOf(a.reducer.coordinates), a.records)).Some?
    ensures var (t', a') := Flush(t, a, force, world);
            && t' == MarkGap(t, KeyOf(a.reducer.coordinates)) && a'.reducer == a.reducer
            && (forall x :: x in a'.records <==> x in a.records && x.terminal)
            && a'.bytes == RuntimeBytes.RecordBytes(a'.records)
  {
    hide MarkGap, ValidBuild, ValidKey, RuntimeBytes.RecordBytes;
    var k := KeyOf(a.reducer.coordinates);
    BuiltChunks(world, t.log, EventsFor(t, k, a.records));
    var (t1, begun) := Begin(t, k, a.records, force, world.build(t.log, EventsFor(t, k, a.records)));
    WriteAllRefused(t1, begun.flight, world);
    TerminalsAre(a.records);
  }

  /** Nothing to send and nothing forced: nothing happens. */
  lemma NothingToFlush(t: State, k: Key, world: World)
    requires ValidKey(k) && k !in t.pending && !t.poisoned
    ensures FlushAll(t, k, [], false, world) == (t, FullyDelivered)
  {
    hide MarkGap, ValidBuild, ValidKey;
  }

  // ----- one observed event -----

  lemma FlushedTakes(t: State, a: Active, world: World)
    requires Calm(t) && WorldOk(world) && ActiveOk(a, t) && OwedIn(t, a.records, [])
    ensures C.Taken(Flush(t, a, false, world).0.log) == C.Taken(t.log)
    ensures Flush(t, a, false, world).1 == a.(records := [], bytes := 0)
  {
    hide Calm, ActiveOk, OwedIn, Flush, C.Taken;
    FlushWindowOk(t, a, false, world);
  }

  /** What an append leaves buffered: everything, or, past 512 KiB, only the new group. */
  ghost predicate Buffered(was: seq<Record>, bytes: nat, group: seq<Record>, now: seq<Record>) {
    now == if |was| > 0 && bytes + RuntimeBytes.RecordBytes(group) > 512 * 1024 then group else was + group
  }

  lemma AppendTakes(t: State, a: Active, reduced: seq<PiRecord>, world: World, low: nat)
    requires Calm(t) && WorldOk(world) && OwedIn(t, a.records, [])
    requires var k := KeyOf(a.reducer.coordinates);
             Flushable(k, a.records, t) && a.bytes == RuntimeBytes.RecordBytes(a.records) && SerialsBelow(t, k, low)
    requires PiGrammar.WindowOk(a.reducer) && Ascending(reduced, low, a.reducer.nextEventID)
    ensures var group := Group(KeyOf(a.reducer.coordinates), reduced, world);
            var (t', a') := Append(t, a, reduced, world);
            && C.Taken(t'.log) == C.Taken(t.log) + (set x <- group)
            && Buffered(a.records, a.bytes, group, a'.records)
  {
    hide PiGrammar.WindowOk, Calm, Flush, TakeAll, Group, C.Taken, C.HandedRecords, C.Unaccounted, Ascending, RuntimeBytes.RecordBytes,
         Flushable, SerialsBelow, GroupFresh;
    var k := KeyOf(a.reducer.coordinates);
    var group := Group(k, reduced, world);
    var taken := TakeAll(t, group);
    TakeAllOk(t, group);
    if |a.records| > 0 && a.bytes + RuntimeBytes.RecordBytes(group) > MAX_SESSION_BUFFER_BYTES {
      GroupIsFresh(k, reduced, world, low, a.reducer.nextEventID);
      CalmFine(t);
      TookFine(t, taken, group);
      AscendingBounds(reduced, low, a.reducer.nextEventID);
      GroupFlushable(t, taken, k, a.records, group, low, a.reducer.nextEventID);
      FlushOne(taken, a, false, world, group);
      assert [] + group == group;
    }
  }

  /** The reducer took one step, adding `bodies`, and what that emitted was taken in. */
  ghost predicate Advanced(a: Active, t: State, w: P.Window, t': State, bodies: seq<P.Body>, world: World) {
    && PiAnswers.Adds(a.reducer, w, bodies)
    && C.Taken(t'.log) == C.Taken(t.log) + (set x <- Group(KeyOf(a.reducer.coordinates), P.Output(a.reducer, w), world))
  }

  /** What the buffer holds after the callback. */
  ghost predicate BufferedAfter(a: Active, w: P.Window, flushBoundary: bool, now: seq<Record>, world: World) {
    if flushBoundary then now == []
    else Buffered(a.records, a.bytes, Group(KeyOf(a.reducer.coordinates), P.Output(a.reducer, w), world), now)
  }

  lemma AdvanceTakes(t: State, a: Active, step: P.Step, world: World)
    requires Calm(t) && WorldOk(world) && ActiveOk(a, t) && OwedIn(t, a.records, [])
    ensures var (t', a') := Advance(t, a, step, world);
            var group := Group(KeyOf(a.reducer.coordinates), P.Output(a.reducer, P.Do(a.reducer, step)), world);
            && C.Taken(t'.log) == C.Taken(t.log) + (set x <- group)
            && Buffered(a.records, a.bytes, group, a'.records)
            && a'.reducer == P.Do(a.reducer, step)
  {
    hide PiGrammar.WindowOk, Calm, Append, Flushable, OwedIn, Ascending, P.Do, P.Output, RuntimeBytes.RecordBytes, Group, C.Taken;
    OutputAscending(a.reducer, step);
    AdvanceOk(t, a, step, world);
    var reducer := P.Do(a.reducer, step);
    AppendTakes(t, a.(reducer := reducer), P.Output(a.reducer, reducer), world, a.reducer.nextEventID);
  }

  /**
   * An observed event, of an open and unfinished window: one that matches is
   * reduced, and the window says exactly what the table of answers has for it;
   * one that does not is degraded as a missing field, while there is a place for
   * that.  What is said is taken in and buffered; a boundary empties the buffer;
   * the window closes when it is asked to, has finished, and nothing is buffered.
   */
  lemma ObservedAnswers(e: Extension, step: Step, world: World) returns (w: P.Window)
    requires ExtensionOk(e) && WorldOk(world) && step.Observed? && e.active.Some? && !e.active.value.reducer.finished
    ensures var a, e' := e.active.value, Observe(e, step, world);
            && (step.matches ==> Advanced(a, e.transport, w, e'.transport, PiAnswers.Said(a.reducer, step.event), world))
            && (step.matches ==> PiAnswers.Moved(a.reducer, w, step.event))
            && (!step.matches ==>
                  Advanced(a, e.transport, w, e'.transport, PiAnswers.IfRoom(a.reducer, [P.CoverageDegraded(P.MissingField)]), world))
            && (w.finished <==> step.matches && step.event.SessionShutdown? && step.event.reason.Some?)
            && (step.closesWindow && w.finished && step.flushBoundary ==> e'.active.None?)
            && (!(step.closesWindow && w.finished) ==>
                  e'.active.Some? && e'.active.value.reducer == w
                  && BufferedAfter(a, w, step.flushBoundary, e'.active.value.records, world))
  {
    hide PiGrammar.WindowOk, Calm, OwedIn, Advance, Flush, P.Do, P.Output, RuntimeBytes.RecordBytes, Group, C.Taken, PiAnswers.Adds,
         PiAnswers.Moved, Flushable, SerialsBelow, P.Reduce, P.Degrade;
    var a := e.active.value;
    var move := if step.matches then P.DoReduce(step.event) else P.DoDegrade(P.MissingField);
    w := P.Do(a.reducer, move);
    DoIs(a.reducer, move);
    AdvanceTakes(e.transport, a, move, world);
    AdvanceOk(e.transport, a, move, world);
    var (t, a1) := Advance(e.transport, a, move, world);
    FlushedTakes(t, a1, world);
    if step.matches {
      PiAnswers.Answers(a.reducer, step.event);
      PiAnswers.Moves(a.reducer, step.event);
      PiAnswers.FinishesIff(a.reducer, step.event);
    } else {
      PiAnswers.DegradesWindow(a.reducer, P.MissingField);
    }
  }

  lemma DoIs(w: P.Window, move: P.Step)
    ensures P.Do(w, move) == if move.DoReduce? then P.Reduce(w, move.event) else P.Degrade(w, move.reason)
  {
  }

  // ----- a call, from its start to its end -----

  /** The window, enabled and with room, does not know the call yet. */
  ghost predicate NewCall(w: P.Window, c: string) {
    && !w.finished && !w.disabled && c !in w.pending && c !in w.final
    && |w.pending| + |w.final| < 1_000 && |w.emitted| + 2 <= 995
  }

  /**
   * A call that starts and ends without error, both observed: the window says
   * its start and its finish, one after the other and nothing else, and both are
   * taken in, unless one is too large.
   */
  lemma StartThenEnd(e: Extension, c: string, tool: string, first: bool, second: bool, world: World)
    requires ExtensionOk(e) && WorldOk(world) && e.active.Some? && NewCall(e.active.value.reducer, c)
    ensures var w := e.active.value.reducer;
            var e1 := Observe(e, Observed(true, P.ToolStart(Some((c, tool))), first, false), world);
            var e2 := Observe(e1, Observed(true, P.ToolEnd(Some((c, tool, false))), second, false), world);
            var k, n := KeyOf(w.coordinates), |w.emitted| + 1;
            var started, finished := P.Record(w.coordinates, n, P.ToolStarted(c, tool)), P.Record(w.coordinates, n + 1, P.ToolFinished(c));
            && e2.active.Some? && e2.active.value.reducer.emitted == w.emitted + [started, finished]
            && (world.size(started).Some? && world.size(finished).Some? ==>
                  C.Taken(e2.transport.log) == C.Taken(e.transport.log)
                    + {Record(k, n, world.size(started).value, false), Record(k, n + 1, world.size(finished).value, false)})
  {
    hide Observe, ExtensionOk, C.Taken, PiGrammar.WindowOk, P.Reduce, PiAnswers.Said, PiAnswers.Moved, RuntimeBytes.RecordBytes, Buffered, Group;
    var w := e.active.value.reducer;
    var start, end := P.ToolStart(Some((c, tool))), P.ToolEnd(Some((c, tool, false)));
    var e1 := Observe(e, Observed(true, start, first, false), world);
    var w1 := StartObserved(e, c, tool, first, world);
    NothingGrouped(e.active.value, w1, world);
    var e2 := Observe(e1, Observed(true, end, second, false), world);
    ObserveKeepsOk(e, Observed(true, start, first, false), world);
    var w2 := EndObserved(e1, c, tool, second, world);
    PairGrouped(e1.active.value, w2, c, tool, world);
    assert (set x <- Group(KeyOf(w.coordinates), P.Output(w, w1), world)) == {};
  }

  lemma ObserveKeepsOk(e: Extension, step: Step, world: World)
    requires ExtensionOk(e) && WorldOk(world) && step.Observed?
    ensures ExtensionOk(Observe(e, step, world))
  {
    hide Observe, ExtensionOk;
    ObserveOk(e, step, world);
  }

  /** The start says nothing; the call is pending with its tool. */
  lemma StartObserved(e: Extension, c: string, tool: string, boundary: bool, world: World) returns (w: P.Window)
    requires ExtensionOk(e) && WorldOk(world) && e.active.Some? && NewCall(e.active.value.reducer, c)
    ensures var e' := Observe(e, Observed(true, P.ToolStart(Some((c, tool))), boundary, false), world);
            && e'.active.Some? && e'.active.value.reducer == w && PiGrammar.WindowOk(w)
            && Advanced(e.active.value, e.transport, w, e'.transport, [], world)
            && !w.finished && !w.disabled && c !in w.final && c in w.pending && w.pending[c].start == P.StartPrint(c, tool)
            && w.coordinates == e.active.value.reducer.coordinates
  {
    hide Observe, C.Taken, PiGrammar.WindowOk, P.Reduce, RuntimeBytes.RecordBytes, Buffered, Group, Calm, OwedIn, Flushable, SerialsBelow,
         PiAnswers.Adds, P.Do;
    var was := e.active.value.reducer;
    var start := P.ToolStart(Some((c, tool)));
    w := ObservedAnswers(e, Observed(true, start, boundary, false), world);
    ObservedReduces(e, start, boundary, world);
    PiRuns.StepOk(was, P.DoReduce(start));
    PiRuns.StepExtends(was, P.DoReduce(start));
    DoIs(was, P.DoReduce(start));
    PiAnswers.Disables(was, start);
    PiAnswers.RemembersCall(was, c, tool, false);
    assert PiAnswers.Said(was, start) == [];
  }

  /** A matching event leaves the reduced window open. */
  lemma ObservedReduces(e: Extension, event: P.Event, boundary: bool, world: World)
    requires ExtensionOk(e) && WorldOk(world) && e.active.Some?
    ensures var e' := Observe(e, Observed(true, event, boundary, false), world);
            e'.active.Some? && e'.active.value.reducer == P.Reduce(e.active.value.reducer, event)
  {
    hide PiGrammar.WindowOk, Calm, OwedIn, Advance, Flush, P.Do, P.Output, Group, C.Taken, Flushable, SerialsBelow, P.Reduce, RuntimeBytes.RecordBytes;
    var a := e.active.value;
    DoIs(a.reducer, P.DoReduce(event));
    AdvanceTakes(e.transport, a, P.DoReduce(event), world);
    AdvanceOk(e.transport, a, P.DoReduce(event), world);
    var (t, a1) := Advance(e.transport, a, P.DoReduce(event), world);
    FlushedTakes(t, a1, world);
  }

  lemma EndObserved(e: Extension, c: string, tool: string, boundary: bool, world: World) returns (w: P.Window)
    requires ExtensionOk(e) && WorldOk(world) && e.active.Some?
    requires var w := e.active.value.reducer;
             !w.finished && !w.disabled && c !in w.final && c in w.pending && w.pending[c].start == P.StartPrint(c, tool) && |w.emitted| + 2 <= 995
    ensures var e' := Observe(e, Observed(true, P.ToolEnd(Some((c, tool, false))), boundary, false), world);
            && e'.active.Some? && e'.active.value.reducer == w
            && Advanced(e.active.value, e.transport, w, e'.transport, [P.ToolStarted(c, tool), P.ToolFinished(c)], world)
  {
    hide Observe, ExtensionOk, C.Taken, P.Reduce, RuntimeBytes.RecordBytes, Buffered, Group, PiAnswers.Adds;
    var end := P.ToolEnd(Some((c, tool, false)));
    w := ObservedAnswers(e, Observed(true, end, boundary, false), world);
    assert PiAnswers.Said(e.active.value.reducer, end) == [P.ToolStarted(c, tool), P.ToolFinished(c)];
  }

  lemma NothingGrouped(a: Active, w: P.Window, world: World)
    requires PiAnswers.Adds(a.reducer, w, [])
    ensures w.emitted == a.reducer.emitted && Group(KeyOf(a.reducer.coordinates), P.Output(a.reducer, w), world) == []
  {
    assert w.emitted == a.reducer.emitted;
    assert P.Output(a.reducer, w) == [];
  }

  lemma AddedAt(w: P.Window, w': P.Window, bodies: seq<P.Body>, i: nat)
    requires PiAnswers.Adds(w, w', bodies) && i < |bodies|
    ensures w'.emitted[|w.emitted| + i] == P.Record(w.coordinates, |w.emitted| + 1 + i, bodies[i])
  {
  }

  lemma PairGrouped(a: Active, w: P.Window, c: string, tool: string, world: World)
    requires PiAnswers.Adds(a.reducer, w, [P.ToolStarted(c, tool), P.ToolFinished(c)])
    ensures var n := |a.reducer.emitted| + 1;
            var k := KeyOf(a.reducer.coordinates);
            var started := P.Record(a.reducer.coordinates, n, P.ToolStarted(c, tool));
            var finished := P.Record(a.reducer.coordinates, n + 1, P.ToolFinished(c));
            && w.emitted == a.reducer.emitted + [started, finished]
            && (world.size(started).Some? && world.size(finished).Some? ==>
                  Group(k, P.Output(a.reducer, w), world)
                    == [Record(k, n, world.size(started).value, false), Record(k, n + 1, world.size(finished).value, false)])
  {
    var n := |a.reducer.emitted|;
    var started := P.Record(a.reducer.coordinates, n + 1, P.ToolStarted(c, tool));
    var finished := P.Record(a.reducer.coordinates, n + 2, P.ToolFinished(c));
    AddedAt(a.reducer, w, [P.ToolStarted(c, tool), P.ToolFinished(c)], 0);
    AddedAt(a.reducer, w, [P.ToolStarted(c, tool), P.ToolFinished(c)], 1);
    assert w.emitted == a.reducer.emitted + [started, finished];
    var out := P.Output(a.reducer, w);
    assert out == [started, finished] && out[1..] == [finished] && out[1..][1..] == [];
    if world.size(started).Some? && world.size(finished).Some? {
      var k := KeyOf(a.reducer.coordinates);
      var first := Record(k, n + 1, world.size(started).value, false);
      var second := Record(k, n + 2, world.size(finished).value, false);
      assert FirstOversized([finished], world) == FirstOversized([], world);
      assert Normal(k, [finished], world) == [second] + Normal(k, [], world) == [second];
      assert Normal(k, out, world) == [first] + [second];
    }
  }

  // ----- the start of a session -----

  /** A window degraded from outside says so and is flushed. */
  lemma DegradedAndFlushed(e: Extension, reason: P.Reason, world: World) returns (w: P.Window)
    requires ExtensionOk(e) && WorldOk(world) && e.active.Some? && !e.active.value.reducer.finished && !reason.Overflow?
    ensures var a, e' := e.active.value, DegradeAndFlush(e, reason, world);
            && Advanced(a, e.transport, w, e'.transport, PiAnswers.IfRoom(a.reducer, [P.CoverageDegraded(reason)]), world)
            && e'.active == Some(Active(w, [], 0))
  {
    hide PiGrammar.WindowOk, Calm, OwedIn, Advance, Flush, P.Do, P.Output, RuntimeBytes.RecordBytes, Group, C.Taken, PiAnswers.Adds,
         Flushable, SerialsBelow, P.Degrade;
    var a, move := e.active.value, P.DoDegrade(reason);
    w := P.Do(a.reducer, move);
    DoIs(a.reducer, move);
    AdvanceTakes(e.transport, a, move, world);
    AdvanceOk(e.transport, a, move, world);
    var (t, a1) := Advance(e.transport, a, move, world);
    FlushedTakes(t, a1, world);
    PiAnswers.DegradesWindow(a.reducer, reason);
  }

  /**
   * A session start: a malformed one is a missing field of the open window; any
   * other ends the open window with an invalid transition, and opens an empty
   * window under the new coordinates if a discriminator could be generated.
   */
  lemma StartAnswers(e: Extension, input: StartInput, world: World) returns (w: P.Window)
    requires ExtensionOk(e) && WorldOk(world) && Enabled(e, SessionStart(input))
    requires e.active.Some? && !e.active.value.reducer.finished
    ensures var a, e' := e.active.value, StartSession(e, input, world);
            var reason := if input.Malformed? then P.MissingField else P.InvalidTransition;
            && Advanced(a, e.transport, w, e'.transport, PiAnswers.IfRoom(a.reducer, [P.CoverageDegraded(reason)]), world)
            && e'.active ==
               match input
               case Malformed => Some(Active(w, [], 0))
               case Begins(sessionID, None) => None
               case Begins(sessionID, Some(d)) => Some(Active(P.Initial(P.Coordinates(sessionID, d)), [], 0))
  {
    hide Calm, ActiveOk, Advance, DegradeAndFlush, Flush, C.Unaccounted, C.Taken, P.Initial, Unused, Advanced, OwedIn;
    w := DegradedAndFlushed(e, if input.Malformed? then P.MissingField else P.InvalidTransition, world);
    StartSessionOk(e, input, world);
    DegradeAndFlushOk(e, P.InvalidTransition, world);
    if input.Begins? && input.discriminator.Some? {
      var closed := DegradeAndFlush(e, P.InvalidTransition, world);
      var started := Active(P.Initial(P.Coordinates(input.sessionID, input.discriminator.value)), [], 0);
      StartedOk(P.Coordinates(input.sessionID, input.discriminator.value), closed.transport);
      FlushWindowOk(closed.transport, started, true, world);
      AdvancedSame(e.active.value, e.transport, w, closed.transport, StartSession(e, input, world).transport,
                   PiAnswers.IfRoom(e.active.value.reducer, [P.CoverageDegraded(P.InvalidTransition)]), world);
    }
  }

  lemma AdvancedSame(a: Active, t: State, w: P.Window, t': State, t'': State, bodies: seq<P.Body>, world: World)
    requires Advanced(a, t, w, t', bodies, world) && C.Taken(t''.log) == C.Taken(t'.log)
    ensures Advanced(a, t, w, t'', bodies, world)
  {
    hide C.Taken, PiAnswers.Adds, Group;
  }
}
