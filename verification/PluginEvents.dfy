/** The plugin as a whole: an event reduced, filtered, appended and flushed. */
module PluginEvents {
  // The reducer and the runtime composed as the `event` hook composes them, up to
  // its await.  What a finished session is still reported for, and when the
  // retained-byte counter of the runtime stays exact.

  import opened Util
  import opened Transport
  import opened CaptureRuntime
  import opened RuntimeHistory
  import RuntimeBytes
  import RuntimeGaps
  import RuntimeRuns
  import R = OpenCodeReducer
  import RS = ReducerSteps
  import RQ = ReducerQuota
  import RR = ReducerRuns

  datatype Plugin = Plugin(reducer: R.Reducer, runtime: Runtime)

  const START := Plugin(R.EMPTY, INITIAL)

  // ----- the event hook -----

  /** A `session_finished` passes; anything else only while its session is not finalized, and asking is a use. */
  function Filtered(s: R.Reducer, records: seq<R.Record>): (R.Reducer, seq<R.Record>)
    decreases |records|
  {
    if |records| == 0 then (s, [])
    else if records[0].SessionFinished? then
      var (s', rest) := Filtered(s, records[1..]);
      (s', [records[0]] + rest)
    else
      var asked := R.TouchFinalized(s, records[0].sessionID);
      var (s', rest) := Filtered(asked, records[1..]);
      (s', if records[0].sessionID in asked.finalized.values then rest else [records[0]] + rest)
  }

  /** What the event leaves to be appended, and the reducer after reducing and filtering. */
  ghost function Reported(s: R.Reducer, e: R.Event): (R.Reducer, seq<R.Record>) {
    var (reduced, records) := R.Reduce(s, e);
    Filtered(reduced, records)
  }

  /** Events after which the buffer of their session is flushed. */
  predicate IsTarget(e: R.Event) {
    e.SessionDeleted? || e.SessionEvent?
  }

  /** The record as normalized and encoded: itself, or a placeholder, which is no terminal. */
  predicate Encodes(x: Record, r: R.Record) {
    && x.key == Session(r.sessionID) && Normalized(x)
    && (x.terminal ==> r.SessionFinished?)
    && (r.SessionFinished? && !x.terminal ==> x.bytes == PlaceholderBytes(r.sessionID))
  }

  predicate Ends(records: seq<R.Record>, sid: string) {
    exists r <- records :: r.SessionFinished? && r.sessionID == sid
  }

  /** Whether there is anything to flush for `k` after `appended` records. */
  predicate Worthwhile(r: Runtime, k: Key, appended: nat) {
    appended > 0 || |BufferedRecords(r, k)| > 0 || k in r.inFlight || HasPendingGap(r.transport, k)
  }

  /** The synchronous part of `event`; `xs` are the encoded records. */
  ghost function Handle(p: Plugin, e: R.Event, xs: seq<Record>): Plugin {
    var (asked, kept) := Reported(p.reducer, e);
    var appended := AppendAll(p.runtime, xs);
    if !IsTarget(e) then Plugin(asked, appended)
    else
      var sid := e.sessionID;
      var s := R.TouchFinalized(asked, sid);
      if (sid in s.finalized.values && !Ends(R.Reduce(p.reducer, e).1, sid)) || !Worthwhile(appended, Session(sid), |xs|) then Plugin(s, appended)
      else Plugin(s, ScheduleFlush(appended, Session(sid), true))
  }

  // ----- runs -----

  /** An event, or a step of the runtime without one; a flush asked for is what `dispose` does. */
  datatype Move = Observe(event: R.Event, encoded: seq<Record>) | Proceed(step: Step)

  ghost predicate Fits(xs: seq<Record>, kept: seq<R.Record>, h: History) {
    && |xs| == |kept| && Distinct(xs)
    && (forall i | 0 <= i < |xs| :: Encodes(xs[i], kept[i]))
    && (forall x <- xs :: x !in Taken(h))
  }

  ghost predicate CanMove(p: Plugin, move: Move) {
    match move
    case Observe(e, xs) => Fits(xs, Reported(p.reducer, e).1, p.runtime.transport.log)
    case Proceed(step) => !step.DoAppend? && Enabled(p.runtime, step)
  }

  ghost function Next(p: Plugin, move: Move): Plugin
    requires CanMove(p, move)
  {
    match move
    case Observe(e, xs) => Handle(p, e, xs)
    case Proceed(step) => p.(runtime := Do(p.runtime, step))
  }

  ghost predicate IsPluginRun(p: Plugin, moves: seq<Move>)
    decreases |moves|
  {
    |moves| > 0 ==> CanMove(p, moves[0]) && IsPluginRun(Next(p, moves[0]), moves[1..])
  }

  ghost function AfterMoves(p: Plugin, moves: seq<Move>): Plugin
    requires IsPluginRun(p, moves)
    decreases |moves|
  {
    if |moves| == 0 then p else AfterMoves(Next(p, moves[0]), moves[1..])
  }

  lemma {:induction false} MoveSnoc(p: Plugin, moves: seq<Move>, move: Move)
    requires IsPluginRun(p, moves) && CanMove(AfterMoves(p, moves), move)
    ensures IsPluginRun(p, moves + [move]) && AfterMoves(p, moves + [move]) == Next(AfterMoves(p, moves), move)
    decreases |moves|
  {
    hide CanMove, Next;
    if |moves| == 0 {
      assert moves + [move] == [move];
    } else {
      MoveSnoc(Next(p, moves[0]), moves[1..], move);
      assert (moves + [move])[1..] == moves[1..] + [move];
    }
  }

  /** Some run of the plugin from its start leads to `p`. */
  ghost predicate PluginReachable(p: Plugin) {
    exists moves :: IsPluginRun(START, moves) && AfterMoves(START, moves) == p
  }

  lemma ReachNext(p: Plugin, move: Move)
    requires PluginReachable(p) && CanMove(p, move)
    ensures PluginReachable(Next(p, move))
  {
    hide CanMove, Next, IsPluginRun, AfterMoves;
    var moves :| IsPluginRun(START, moves) && AfterMoves(START, moves) == p;
    MoveSnoc(START, moves, move);
  }

  lemma StartReachable()
    ensures PluginReachable(START)
  {
    var none: seq<Move> := [];
    assert IsPluginRun(START, none) && AfterMoves(START, none) == START;
  }

  // ----- every run of the plugin is a run of its parts -----

  ghost predicate PluginOk(p: Plugin) {
    RS.ReducerOk(p.reducer) && Reachable(p.runtime)
  }

  lemma ScheduleTaken(r: Runtime, k: Key, force: bool)
    ensures Taken(ScheduleFlush(r, k, force).transport.log) == Taken(r.transport.log)
  {
    hide TerminalOf, ScheduleFlush;
    RuntimeGaps.ScheduleMarks(r, k, force);
  }

  lemma AppendTaken(r: Runtime, x: Record)
    ensures Taken(Append(r, x).transport.log) == Taken(r.transport.log) + {x}
  {
    hide ScheduleFlush, Admit;
    var r0 := r.(transport := r.transport.Noting(Took(x)));
    var overfull := Overfull(r0, x.key, x.bytes);
    var r1 := if overfull then ScheduleFlush(r0, x.key, false) else r0;
    ScheduleTaken(r0, x.key, false);
    AdmitTaken(r1, x, if !overfull && x.key in r1.buffers then r1.buffers[x.key] else Buffer([], 0));
  }

  lemma AdmitTaken(r: Runtime, x: Record, buffer: Buffer)
    ensures Taken(Admit(r, x, buffer).transport.log) == Taken(r.transport.log)
  {
    MarkTaken(r.transport, x.key);
    hide MarkGap, Taken;
  }

  lemma MarkTaken(t: State, k: Key)
    ensures Taken(MarkGap(t, k).log) == Taken(t.log)
  {
  }

  lemma RestoreTaken(r: Runtime, k: Key, terminal: Record)
    ensures Taken(RestoreTerminal(r, k, terminal).0.transport.log) == Taken(r.transport.log)
  {
    hide TerminalOf, MarkGap, Taken;
    MarkTaken(r.transport, k);
    MarkTaken(Mark(r, k).transport, k);
  }

  lemma ReleaseTaken(r: Runtime, k: Key)
    requires k in r.inFlight && r.inFlight[k].stage.Settled?
    ensures Taken(Release(r, k).transport.log) == Taken(r.transport.log)
  {
    hide TerminalOf, RestoreTerminal, Taken, DeferTerminal;
    var f := r.inFlight[k];
    var r1 := if |f.records| > 0 then r.(retained := r.retained - f.bytes) else r;
    if TerminalOf(f.records).Some? {
      RestoreTaken(r1, k, TerminalOf(f.records).value);
      RuntimeGaps.OnlyTables(RestoreTerminal(r1, k, TerminalOf(f.records).value).0, k, true);
    }
  }

  lemma CompleteTaken(r: Runtime, k: Key, pick: Option<Key>)
    requires k in r.inFlight && r.inFlight[k].stage.Settled?
    ensures Taken(Complete(r, k, pick).transport.log) == Taken(r.transport.log)
  {
    hide ScheduleFlush, Release, FirstDeferred, Without, Taken;
    ReleaseTaken(r, k);
    var released := Release(r, k);
    ScheduleTaken(released.(postPending := released.postPending - {k}), k, true);
    var first := FirstDeferred(released.deferred, released.inFlight.Keys);
    if first.Some? {
      ScheduleTaken(released.(deferred := Without(released.deferred, first.value)), first.value, true);
    }
    if pick.Some? {
      ScheduleTaken(released, pick.value, true);
    }
  }

  lemma FlightTaken(t: State, f: Flight, ok: bool)
    requires f.next <= |f.chunks|
    ensures f.next < |f.chunks| && !f.writing ==> Taken(StartWrite(t, f).0.log) == Taken(t.log)
    ensures f.next < |f.chunks| && f.writing && t.active > 0 ==> Taken(SettleWrite(t, f, ok).0.log) == Taken(t.log)
    ensures f.next == |f.chunks| && !f.writing ==> Taken(Finish(t, f).0.log) == Taken(t.log)
  {
    MarkTaken(t, f.key);
    hide MarkGap;
  }

  /** Nothing but an append takes a record in. */
  lemma StepTaken(r: Runtime, step: Step)
    requires Enabled(r, step) && !step.DoAppend?
    ensures Taken(Do(r, step).transport.log) == Taken(r.transport.log)
  {
    hide ScheduleFlush, Complete, Release, Taken, StartWrite, SettleWrite, Finish, MarkGap, PickOk, ValidBuild;
    match step
    case DoSchedule(k, force) => ScheduleTaken(r, k, force);
    case DoBegin(k, build) => MarkTaken(r.transport, k);
    case DoStartChunk(k) => FlightTaken(r.transport, r.inFlight[k].stage.flight, false);
    case DoSettleChunk(k, ok) => FlightTaken(r.transport, r.inFlight[k].stage.flight, ok);
    case DoFinish(k) => FlightTaken(r.transport, r.inFlight[k].stage.flight, false);
    case DoComplete(k, pick) => CompleteTaken(r, k, pick);
  }

  /** Appending the records of one event, one after the other, takes exactly them in. */
  lemma {:induction false} AppendAllRuns(r: Runtime, xs: seq<Record>)
    requires Reachable(r) && Distinct(xs)
    requires forall x <- xs :: Normalized(x) && x !in Taken(r.transport.log)
    ensures Reachable(AppendAll(r, xs))
    ensures Taken(AppendAll(r, xs).transport.log) == Taken(r.transport.log) + (set x <- xs)
    decreases |xs|
  {
    hide Reachable, Append, Taken, Normalized;
    if |xs| > 0 {
      var x := xs[0];
      assert x in xs;
      ReachStep(r, DoAppend(x));
      AppendTaken(r, x);
      assert forall i, j | 0 <= i < j < |xs[1..]| :: xs[1..][i] != xs[1..][j];
      assert forall y <- xs[1..] :: y in xs && y != x;
      AppendAllRuns(Append(r, x), xs[1..]);
      assert forall y <- xs :: y == x || y in xs[1..];
    }
  }

  lemma {:induction false} FilteredOk(s: R.Reducer, records: seq<R.Record>)
    requires RS.ReducerOk(s)
    decreases |records|
    ensures RS.ReducerOk(Filtered(s, records).0)
    ensures Filtered(s, records).0.finalized.values == s.finalized.values
    ensures |Filtered(s, records).1| <= |records|
    ensures forall r <- Filtered(s, records).1 ::
              r in records && (r.SessionFinished? || r.sessionID !in s.finalized.values)
  {
    hide RS.ReducerOk, R.TouchFinalized;
    if |records| > 0 {
      var asked := R.TouchFinalized(s, records[0].sessionID);
      RS.TouchOk(s, records[0].sessionID);
      FilteredOk(s, records[1..]);
      FilteredOk(asked, records[1..]);
      assert forall r <- records[1..] :: r in records;
      assert records[0] in records;
    }
  }

  lemma HandleOk(p: Plugin, e: R.Event, xs: seq<Record>)
    requires PluginOk(p) && Fits(xs, Reported(p.reducer, e).1, p.runtime.transport.log)
    ensures PluginOk(Handle(p, e, xs))
    ensures Taken(Handle(p, e, xs).runtime.transport.log) == Taken(p.runtime.transport.log) + (set x <- xs)
    ensures Handle(p, e, xs).reducer.finalized.values == R.Reduce(p.reducer, e).0.finalized.values
  {
    hide RS.ReducerOk, R.Reduce, R.TouchFinalized, Reachable, Taken, AppendAll, ScheduleFlush, Filtered, Normalized;
    RQ.ReduceOk(p.reducer, e);
    var (reduced, records) := R.Reduce(p.reducer, e);
    FilteredOk(reduced, records);
    var asked := Filtered(reduced, records).0;
    assert forall x <- xs :: Normalized(x);
    AppendAllRuns(p.runtime, xs);
    var appended := AppendAll(p.runtime, xs);
    if IsTarget(e) {
      RS.TouchOk(asked, e.sessionID);
      ReachStep(appended, DoSchedule(Session(e.sessionID), true));
      ScheduleTaken(appended, Session(e.sessionID), true);
    }
  }

  lemma NextOk(p: Plugin, move: Move)
    requires PluginOk(p) && CanMove(p, move)
    ensures PluginOk(Next(p, move))
  {
    hide RS.ReducerOk, Reachable, Handle, Do, Enabled, Fits, Reported;
    match move
    case Observe(e, xs) => HandleOk(p, e, xs);
    case Proceed(step) => ReachStep(p.runtime, step);
  }

  /** Composition: the runtime of every run of the plugin is in a reachable state, its reducer in order. */
  lemma {:induction false} RunIsReachable(p: Plugin, moves: seq<Move>)
    requires PluginOk(p) && IsPluginRun(p, moves)
    ensures PluginOk(AfterMoves(p, moves))
    decreases |moves|
  {
    hide PluginOk, CanMove, Next;
    if |moves| > 0 {
      NextOk(p, moves[0]);
      RunIsReachable(Next(p, moves[0]), moves[1..]);
    }
  }

  lemma StartOk()
    ensures PluginOk(START)
  {
    RR.EmptyOk();
    InitialReachable();
  }

  lemma ReachableOk(p: Plugin)
    requires PluginReachable(p)
    ensures PluginOk(p)
  {
    hide PluginOk, IsPluginRun, AfterMoves;
    StartOk();
    var moves :| IsPluginRun(START, moves) && AfterMoves(START, moves) == p;
    RunIsReachable(START, moves);
  }

  // ----- finished sessions -----

  /** What an event reports is of its own session, and a `session_finished` only for an accepted deletion. */
  lemma ReportedIs(s: R.Reducer, e: R.Event)
    requires RS.ReducerOk(s)
    ensures forall r <- Reported(s, e).1 :: r.sessionID == RR.SessionOf(e)
    ensures !RQ.AcceptsDelete(s, e) ==> forall r <- Reported(s, e).1 :: !r.SessionFinished?
    ensures RQ.AcceptsDelete(s, e) ==>
      && e.SessionDeleted? && e.sessionID !in s.finalized.values
      && Reported(s, e).1 == [R.SessionFinished(e.sessionID, e.eventID)]
      && e.sessionID in R.Reduce(s, e).0.finalized.values
  {
    hide RS.ReducerOk, R.Reduce;
    RQ.ReduceOk(s, e);
    var (reduced, records) := R.Reduce(s, e);
    FilteredOk(reduced, records);
    if RQ.AcceptsDelete(s, e) {
      RR.AcceptedDelete(s, e);
      assert Filtered(reduced, []) == (reduced, []);
      assert records[1..] == [];
    } else {
      RR.EventOutput(s, e);
    }
  }

  lemma IrrelevantIsSilent(s: R.Reducer)
    ensures Reported(s, R.Irrelevant).1 == []
  {
    RR.NothingToBound(s);
  }

  /** While a session is finalized, no event of it has anything appended. */
  lemma FinalizedIsSilent(s: R.Reducer, e: R.Event)
    requires RS.ReducerOk(s) && RR.SessionOf(e) in s.finalized.values && !e.Irrelevant?
    ensures Reported(s, e).1 == []
  {
    hide RS.ReducerOk, R.Reduce, RQ.AcceptsDelete;
    ReportedIs(s, e);
    RQ.ReduceOk(s, e);
    RR.FinalizedReportsOnce(s, e);
    var (reduced, records) := R.Reduce(s, e);
    FilteredOk(reduced, records);
    SomeMember(Reported(s, e).1);
  }

  lemma SomeMember<T>(xs: seq<T>)
    ensures xs == [] || exists x :: x in xs
  {
    if |xs| > 0 {
      assert xs[0] in xs;
    }
  }

  /** An accepted deletion has its one terminal record appended and its buffer flushed by force. */
  lemma AcceptedIsAppended(p: Plugin, e: R.Event, xs: seq<Record>)
    requires PluginOk(p) && RQ.AcceptsDelete(p.reducer, e)
    requires Fits(xs, Reported(p.reducer, e).1, p.runtime.transport.log)
    ensures |xs| == 1 && Encodes(xs[0], R.SessionFinished(e.sessionID, e.eventID))
    ensures Handle(p, e, xs).runtime == ScheduleFlush(Append(p.runtime, xs[0]), Session(e.sessionID), true)
  {
    hide RS.ReducerOk, R.Reduce, Append, ScheduleFlush, RQ.AcceptsDelete, Reachable, Taken, R.TouchFinalized;
    ReportedIs(p.reducer, e);
    RR.AcceptedDelete(p.reducer, e);
    var r := R.SessionFinished(e.sessionID, e.eventID);
    assert r in R.Reduce(p.reducer, e).1;
    assert AppendAll(p.runtime, xs) == Append(p.runtime, xs[0]) by {
      assert xs[1..] == [];
      assert AppendAll(Append(p.runtime, xs[0]), []) == Append(p.runtime, xs[0]);
    }
  }

  ghost predicate FinalizedThroughout(p: Plugin, moves: seq<Move>, sid: string)
    requires IsPluginRun(p, moves)
    decreases |moves|
  {
    sid in p.reducer.finalized.values && (|moves| > 0 ==> FinalizedThroughout(Next(p, moves[0]), moves[1..], sid))
  }

  /** The records of one session that the runtime took in. */
  function TakenOf(p: Plugin, sid: string): set<Record> {
    set x | x in Taken(p.runtime.transport.log) && x.key == Session(sid)
  }

  lemma TakenStays(p: Plugin, move: Move, sid: string)
    requires PluginOk(p) && CanMove(p, move) && sid in p.reducer.finalized.values
    ensures TakenOf(Next(p, move), sid) == TakenOf(p, sid)
  {
    hide RS.ReducerOk, R.Reduce, Reachable, Handle, Do, Enabled, Reported, Taken, Normalized;
    match move
    case Observe(e, xs) =>
      HandleOk(p, e, xs);
      if e.Irrelevant? {
        IrrelevantIsSilent(p.reducer);
      } else {
        ReportedIs(p.reducer, e);
        if e.sessionID == sid {
          FinalizedIsSilent(p.reducer, e);
        }
      }
    case Proceed(step) => StepTaken(p.runtime, step);
  }

  /**
   * From its accepted deletion on, for as long as the session is remembered as
   * finalized, the runtime takes in no further record of it, over every run.
   */
  lemma {:induction false} SilentWhileFinalized(p: Plugin, moves: seq<Move>, sid: string)
    requires PluginOk(p) && IsPluginRun(p, moves) && FinalizedThroughout(p, moves, sid)
    ensures TakenOf(AfterMoves(p, moves), sid) == TakenOf(p, sid)
    decreases |moves|
  {
    hide PluginOk, CanMove, Next, TakenOf;
    if |moves| > 0 {
      TakenStays(p, moves[0], sid);
      NextOk(p, moves[0]);
      SilentWhileFinalized(Next(p, moves[0]), moves[1..], sid);
    }
  }

  // ----- when the retained-byte counter is exact -----

  /** Every terminal record that is held belongs to a session remembered as finalized. */
  ghost predicate TerminalsKnown(p: Plugin) {
    forall x :: HeldBy(p.runtime, x) && x.terminal ==> x.key.sessionID in p.reducer.finalized.values
  }

  /** The entry of a session goes while a terminal record of it is held. */
  ghost predicate Forgets(p: Plugin, p': Plugin) {
    exists x :: HeldBy(p.runtime, x) && x.terminal && x.key.sessionID !in p'.reducer.finalized.values
  }

  /** Held before, or one of `xs`. */
  ghost predicate HoldsNoMore(r: Runtime, r': Runtime, xs: seq<Record>) {
    forall x :: HeldBy(r', x) ==> HeldBy(r, x) || x in xs
  }

  lemma ScheduleHolds(r: Runtime, k: Key, force: bool)
    ensures HoldsNoMore(r, ScheduleFlush(r, k, force), [])
  {
    hide MarkGap, DeferTerminal, CheckAfterPending, TerminalOf, RetainOnlyTerminal;
    TablesHold(r, k);
    if k in r.buffers {
      RetainHolds(r, k);
      TablesHold(Mark(RetainOnlyTerminal(r, k), k), k);
    }
  }

  lemma RetainHolds(r: Runtime, k: Key)
    requires k in r.buffers
    ensures HoldsNoMore(r, RetainOnlyTerminal(r, k), []) && HoldsNoMore(r, Mark(RetainOnlyTerminal(r, k), k), [])
  {
    hide MarkGap;
  }

  lemma TablesHold(r: Runtime, k: Key)
    ensures forall has: bool, x :: HeldBy(CheckAfterPending(r, k, has), x) <==> HeldBy(r, x)
    ensures forall x :: HeldBy(DeferTerminal(r, k), x) <==> HeldBy(r, x)
  {
  }

  lemma HoldsTrans(r: Runtime, s: Runtime, u: Runtime, xs: seq<Record>)
    requires HoldsNoMore(r, s, []) && HoldsNoMore(s, u, xs)
    ensures HoldsNoMore(r, u, xs)
  {
    hide HeldBy;
  }

  lemma AppendHolds(r: Runtime, x: Record)
    ensures HoldsNoMore(r, Append(r, x), [x])
  {
    hide HoldsNoMore, ScheduleFlush, Admit;
    var k := x.key;
    var r0 := r.(transport := r.transport.Noting(Took(x)));
    var overfull := Overfull(r0, k, x.bytes);
    var r1 := if overfull then ScheduleFlush(r0, k, false) else r0;
    SameTablesHold(r, r0);
    ScheduleHolds(r0, k, false);
    var buffer := if !overfull && k in r1.buffers then r1.buffers[k] else Buffer([], 0);
    AdmitHolds(r1, x, buffer);
    if overfull {
      HoldsTrans(r, r0, r1, []);
    }
    HoldsTrans(r, r1, Append(r, x), [x]);
  }

  lemma SameTablesHold(r: Runtime, r': Runtime)
    requires r'.buffers == r.buffers && r'.inFlight == r.inFlight
    ensures HoldsNoMore(r, r', [])
  {
  }

  lemma AdmitHolds(r: Runtime, x: Record, buffer: Buffer)
    requires buffer.records == [] || (x.key in r.buffers && buffer == r.buffers[x.key])
    ensures HoldsNoMore(r, Admit(r, x, buffer), [x])
  {
    hide MarkGap;
  }

  lemma RestoreHolds(r: Runtime, k: Key, terminal: Record)
    ensures forall x :: HeldBy(RestoreTerminal(r, k, terminal).0, x) ==> HeldBy(r, x) || (x == terminal && x.key == k)
  {
    hide MarkGap, TerminalOf;
  }

  lemma ReleaseHolds(r: Runtime, k: Key)
    requires k in r.inFlight && r.inFlight[k].stage.Settled?
    ensures HoldsNoMore(r, Release(r, k), [])
  {
    hide RestoreTerminal, DeferTerminal;
    var f := r.inFlight[k];
    var r1 := if |f.records| > 0 then r.(retained := r.retained - f.bytes) else r;
    var terminal := TerminalOf(f.records);
    if terminal.Some? && f.stage.result.NotStarted? {
      RestoreHolds(r1, k, terminal.value);
      TablesHold(RestoreTerminal(r1, k, terminal.value).0, k);
    }
  }

  lemma CompleteHolds(r: Runtime, k: Key, pick: Option<Key>)
    requires k in r.inFlight && r.inFlight[k].stage.Settled?
    ensures HoldsNoMore(r, Complete(r, k, pick), [])
  {
    hide ScheduleFlush, Release, FirstDeferred, Without, HeldBy;
    ReleaseHolds(r, k);
    var released := Release(r, k);
    var checked := released.(postPending := released.postPending - {k});
    SameTablesHold(released, checked);
    ScheduleHolds(checked, k, true);
    var first := FirstDeferred(released.deferred, released.inFlight.Keys);
    if first.Some? {
      var taken := released.(deferred := Without(released.deferred, first.value));
      SameTablesHold(released, taken);
      ScheduleHolds(taken, first.value, true);
    }
    if pick.Some? {
      ScheduleHolds(released, pick.value, true);
    }
  }

  lemma StepHolds(r: Runtime, step: Step)
    requires Enabled(r, step) && !step.DoAppend?
    ensures HoldsNoMore(r, Do(r, step), [])
  {
    hide ScheduleFlush, Complete, Release, Begin, StartWrite, SettleWrite, Finish, PickOk, ValidBuild;
    match step
    case DoSchedule(k, force) => ScheduleHolds(r, k, force);
    case DoBegin(k, build) =>
    case DoStartChunk(k) =>
    case DoSettleChunk(k, ok) =>
    case DoFinish(k) =>
    case DoComplete(k, pick) => CompleteHolds(r, k, pick);
  }

  /** No terminal record of `k` is held. */
  ghost predicate NoTerminal(r: Runtime, k: Key) {
    forall x :: HeldBy(r, x) && x.key == k ==> !x.terminal
  }

  /** Only a held terminal can be stranded. */
  lemma LeakHolds(r: Runtime, x: Record)
    requires HistoryOk(r)
    ensures RuntimeBytes.Leaks(r, x) ==> !NoTerminal(r, x.key)
  {
    hide Taken, FlushOk, TransportOk, Distinct, HeldBut;
    if RuntimeBytes.Leaks(r, x) {
      var terminal := TerminalOf(r.buffers[x.key].records).value;
      assert BufferOk(x.key, r.buffers[x.key], r.transport.log);
      assert HeldBy(r, terminal);
    }
  }

  lemma AppendExact(r: Runtime, x: Record)
    requires Reachable(r) && NoTerminal(r, x.key)
    ensures RuntimeBytes.Slack(Append(r, x)) == RuntimeBytes.Slack(r)
  {
    hide Reachable, RuntimeBytes.Slack, RuntimeBytes.Leaks, Append, NoTerminal, HistoryOk;
    RuntimeBytes.ReachableBytes(r);
    RuntimeRuns.ReachableHistoryOk(r);
    LeakHolds(r, x);
    RuntimeBytes.AppendBytes(r, x);
  }

  /** The records of one event: of one session, at most the last a terminal. */
  lemma {:induction false} AppendAllExact(r: Runtime, xs: seq<Record>, k: Key)
    requires Reachable(r) && Distinct(xs) && NoTerminal(r, k)
    requires forall x <- xs :: x.key == k && Normalized(x) && x !in Taken(r.transport.log)
    requires forall i | 0 <= i < |xs| - 1 :: !xs[i].terminal
    ensures RuntimeBytes.Slack(AppendAll(r, xs)) == RuntimeBytes.Slack(r)
    ensures HoldsNoMore(r, AppendAll(r, xs), xs)
    decreases |xs|
  {
    hide Reachable, Append, Taken, Normalized, RuntimeBytes.Slack, HeldBy;
    if |xs| > 0 {
      var x := xs[0];
      assert x in xs;
      ReachStep(r, DoAppend(x));
      AppendTaken(r, x);
      AppendExact(r, x);
      AppendHolds(r, x);
      assert forall i, j | 0 <= i < j < |xs[1..]| :: xs[1..][i] != xs[1..][j];
      assert forall y <- xs[1..] :: y in xs && y != x;
      if |xs| == 1 {
        assert xs[1..] == [];
      } else {
        AppendAllExact(Append(r, x), xs[1..], k);
      }
    }
  }

  /** An event strands nothing when every terminal held is of a finalized session. */
  lemma HandleExact(p: Plugin, e: R.Event, xs: seq<Record>)
    requires PluginOk(p) && TerminalsKnown(p) && Fits(xs, Reported(p.reducer, e).1, p.runtime.transport.log)
    ensures RuntimeBytes.Slack(Handle(p, e, xs).runtime) == RuntimeBytes.Slack(p.runtime)
    ensures HoldsNoMore(p.runtime, Handle(p, e, xs).runtime, xs)
    ensures forall x <- xs :: x.terminal ==> x.key.sessionID in R.Reduce(p.reducer, e).0.finalized.values
  {
    hide RS.ReducerOk, R.Reduce, R.TouchFinalized, Reachable, Taken, Append, ScheduleFlush, Reported, Normalized, HeldBy,
         RQ.AcceptsDelete, RuntimeBytes.Slack;
    var kept := Reported(p.reducer, e).1;
    var k := Session(RR.SessionOf(e));
    ReportedIs(p.reducer, e);
    if e.Irrelevant? {
      IrrelevantIsSilent(p.reducer);
    } else if |kept| > 0 && RR.SessionOf(e) in p.reducer.finalized.values {
      FinalizedIsSilent(p.reducer, e);
    }
    assert forall x <- xs :: x.key == k && Normalized(x);
    AppendAllRuns(p.runtime, xs);
    var appended := AppendAll(p.runtime, xs);
    if |xs| > 0 {
      AppendAllExact(p.runtime, xs, k);
    }
    RuntimeBytes.ReachableBytes(appended);
    RuntimeBytes.ScheduleFlushBytes(appended, k, true);
    ScheduleHolds(appended, k, true);
    HoldsAfter(p.runtime, appended, ScheduleFlush(appended, k, true), xs);
  }

  lemma HoldsAfter(r: Runtime, s: Runtime, u: Runtime, xs: seq<Record>)
    requires HoldsNoMore(r, s, xs) && HoldsNoMore(s, u, [])
    ensures HoldsNoMore(r, u, xs)
  {
    hide HeldBy;
  }

  lemma NextExact(p: Plugin, move: Move)
    requires PluginOk(p) && TerminalsKnown(p) && CanMove(p, move)
    ensures RuntimeBytes.Slack(Next(p, move).runtime) == RuntimeBytes.Slack(p.runtime)
    ensures !Forgets(p, Next(p, move)) ==> TerminalsKnown(Next(p, move))
  {
    hide RS.ReducerOk, Reachable, Handle, Do, Enabled, Fits, Reported, R.Reduce, RuntimeBytes.Slack, HeldBy;
    match move
    case Observe(e, xs) =>
      HandleExact(p, e, xs);
      HandleOk(p, e, xs);
    case Proceed(step) =>
      RuntimeBytes.ReachableBytes(p.runtime);
      RuntimeBytes.StepBytes(p.runtime, step);
      StepHolds(p.runtime, step);
  }

  /** No move of the run forgets a finalized session while a terminal record of it is held. */
  ghost predicate NeverForgets(p: Plugin, moves: seq<Move>)
    requires IsPluginRun(p, moves)
    decreases |moves|
  {
    |moves| > 0 ==> !Forgets(p, Next(p, moves[0])) && NeverForgets(Next(p, moves[0]), moves[1..])
  }

  lemma {:induction false} ExactRun(p: Plugin, moves: seq<Move>)
    requires PluginOk(p) && TerminalsKnown(p) && IsPluginRun(p, moves) && NeverForgets(p, moves)
    ensures RuntimeBytes.Slack(AfterMoves(p, moves).runtime) == RuntimeBytes.Slack(p.runtime)
    ensures TerminalsKnown(AfterMoves(p, moves))
    decreases |moves|
  {
    hide PluginOk, CanMove, Next, TerminalsKnown, Forgets, RuntimeBytes.Slack;
    if |moves| > 0 {
      NextExact(p, moves[0]);
      NextOk(p, moves[0]);
      ExactRun(Next(p, moves[0]), moves[1..]);
    }
  }

  /**
   * In the plugin as a whole the retained-byte counter is exact throughout every
   * run in which no session leaves the table of finalized sessions while its
   * terminal record is still held.
   */
  lemma ExactUnlessForgotten(moves: seq<Move>)
    requires IsPluginRun(START, moves) && NeverForgets(START, moves)
    ensures RuntimeBytes.Slack(AfterMoves(START, moves).runtime) == 0
  {
    hide PluginOk, IsPluginRun, AfterMoves, NeverForgets, RuntimeBytes.Slack;
    StartOk();
    RuntimeBytes.InitialBytes();
    ExactRun(START, moves);
  }
}
