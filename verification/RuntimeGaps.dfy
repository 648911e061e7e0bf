/** What becomes of the gaps that the plugin runtime marks. */
module RuntimeGaps {
  // A mark is remembered by the transport until a delivered flush that carried the
  // notice of it, or it is refused at once; which of the two, the history tells.

  import opened Util
  import opened Transport
  import opened CaptureRuntime
  import RuntimeHistory
  import CanonicalJson
  import opened RuntimeRuns

  /** Whether a mark of `k` is remembered when the sessions in `owed` have a gap. */
  predicate Room(k: Key, owed: set<Key>) {
    ValidKey(k) && (k in owed || |owed| < MAX_PENDING_GAPS)
  }

  /** The sessions with a remembered mark that no delivery has reported since. */
  function OwedGaps(h: History): set<Key> {
    match h
    case Start => {}
    case Then(past, Marked(k)) => if Room(k, OwedGaps(past)) then OwedGaps(past) + {k} else OwedGaps(past)
    case Then(past, Delivered(_, Some(k))) => OwedGaps(past) - {k}
    case Then(past, _) => OwedGaps(past)
  }

  /** Since the last mark of `k`, a launcher confirmed a chunk with the notice of its gap. */
  predicate NoticeConfirmed(h: History, k: Key) {
    match h
    case Start => false
    case Then(past, Marked(j)) => j != k && NoticeConfirmed(past, k)
    case Then(past, Confirmed(events)) => GapNotice(k) in events || NoticeConfirmed(past, k)
    case Then(past, _) => NoticeConfirmed(past, k)
  }

  /** A gap is only reported when its notice was confirmed after its last mark. */
  ghost predicate ReportsConfirmed(h: History) {
    match h
    case Start => true
    case Then(past, Delivered(_, Some(k))) => ReportsConfirmed(past) && NoticeConfirmed(past, k)
    case Then(past, _) => ReportsConfirmed(past)
  }

  // ----- the invariant -----

  /** A flight that read the stamp still pending, and lost no chunk, has its notice confirmed or still to come. */
  ghost predicate FlightFine(f: Flight, t: State) {
    && FlightOk(t.generation, f)
    && (f.seen.Some? && Get(t.pending, f.key) == f.seen && f.delivered == f.next ==>
          NoticeConfirmed(t.log, f.key) || GapNotice(f.key) in FlattenFrom(f.chunks, f.next))
  }

  ghost predicate GapsTold(t: State) {
    StateOk(t) && t.overflow.Drop? && OwedGaps(t.log) == t.pending.Keys && ReportsConfirmed(t.log)
  }

  ghost predicate GapsOk(r: Runtime) {
    GapsTold(r.transport)
    && forall k <- r.inFlight :: r.inFlight[k].stage.Writing? ==> FlightFine(r.inFlight[k].stage.flight, r.transport)
  }

  /** A transport step that keeps the account of gaps, and every flight that has no part in it. */
  ghost predicate Calm(t: State, t': State) {
    GapsTold(t) ==> GapsTold(t') && forall f :: FlightFine(f, t) ==> FlightFine(f, t')
  }

  ghost predicate CalmRuntime(r: Runtime, r': Runtime) {
    && Calm(r.transport, r'.transport)
    && forall k <- r'.inFlight :: r'.inFlight[k].stage.Writing? ==>
         k in r.inFlight && r'.inFlight[k].stage == r.inFlight[k].stage
  }

  lemma CalmKeeps(r: Runtime, r': Runtime)
    requires GapsOk(r) && CalmRuntime(r, r')
    ensures GapsOk(r')
  {
    hide GapsTold, FlightFine;
  }

  lemma CalmTrans(r: Runtime, s: Runtime, u: Runtime)
    requires CalmRuntime(r, s) && CalmRuntime(s, u)
    ensures CalmRuntime(r, u)
  {
    hide GapsTold, FlightFine;
  }

  /** A mark outdates the stamp that a flight of its session read, and means nothing to the others. */
  lemma MarkFine(t: State, k: Key, f: Flight)
    requires StateOk(t) && FlightFine(f, t)
    ensures FlightFine(f, MarkGap(t, k))
  {
    hide FlattenFrom, ValidBuild, ValidKey;
  }

  lemma MarkTold(t: State, k: Key)
    requires GapsTold(t)
    ensures GapsTold(MarkGap(t, k))
  {
    MarkOk(t, k);
    if ValidKey(k) {
      MarkRememberedIff(t, k);
    }
    hide StateOk, ValidKey;
  }

  lemma MarkCalm(t: State, k: Key)
    ensures Calm(t, MarkGap(t, k))
  {
    hide FlightFine, MarkGap, OwedGaps, ReportsConfirmed;
    if GapsTold(t) {
      MarkTold(t, k);
      forall f | FlightFine(f, t)
        ensures FlightFine(f, MarkGap(t, k))
      {
        MarkFine(t, k, f);
      }
    }
  }

  lemma TookCalm(t: State, x: Record)
    ensures Calm(t, t.Noting(Took(x)))
  {
    hide FlattenFrom, ValidBuild;
  }

  // ----- the operations on the tables only mark -----

  /** At most one mark, and no flight that was not there. */
  lemma OneMark(r: Runtime, r': Runtime, k: Key)
    requires r'.transport == r.transport || r'.transport == MarkGap(r.transport, k)
    requires forall j <- r'.inFlight :: r'.inFlight[j].stage.Writing? ==> j in r.inFlight && r'.inFlight[j] == r.inFlight[j]
    ensures CalmRuntime(r, r')
  {
    MarkCalm(r.transport, k);
    hide GapsTold, FlightFine, MarkGap;
  }

  /** What only moves buffers and waiting sessions about leaves flights and transport alone. */
  lemma OnlyTables(r: Runtime, k: Key, hasTerminal: bool)
    ensures k in r.buffers ==>
      RetainOnlyTerminal(r, k).transport == r.transport && RetainOnlyTerminal(r, k).inFlight == r.inFlight
    ensures DeferTerminal(r, k).transport == r.transport && DeferTerminal(r, k).inFlight == r.inFlight
    ensures CheckAfterPending(r, k, hasTerminal).transport == r.transport && CheckAfterPending(r, k, hasTerminal).inFlight == r.inFlight
  {
    hide TerminalOf;
  }

  /** Scheduling marks at most its own session, and what it puts in flight has not begun. */
  lemma ScheduleMarks(r: Runtime, k: Key, force: bool)
    ensures var r' := ScheduleFlush(r, k, force);
            && (r'.transport == r.transport || r'.transport == MarkGap(r.transport, k))
            && forall j <- r'.inFlight :: r'.inFlight[j].stage.Writing? ==> j in r.inFlight && r'.inFlight[j] == r.inFlight[j]
  {
    hide MarkGap, TerminalOf, RetainOnlyTerminal, DeferTerminal, CheckAfterPending;
    var hasTerminal := TerminalOf(BufferedRecords(r, k)).Some?;
    OnlyTables(r, k, hasTerminal);
    if k in r.buffers {
      OnlyTables(Mark(RetainOnlyTerminal(r, k), k), k, hasTerminal);
    }
  }

  lemma ScheduleCalm(r: Runtime, k: Key, force: bool)
    ensures CalmRuntime(r, ScheduleFlush(r, k, force))
  {
    hide CalmRuntime, MarkGap, ScheduleFlush;
    ScheduleMarks(r, k, force);
    OneMark(r, ScheduleFlush(r, k, force), k);
  }

  lemma AppendCalm(r: Runtime, x: Record)
    ensures CalmRuntime(r, Append(r, x))
  {
    hide Calm, ScheduleFlush, MarkGap;
    var k := x.key;
    var r0 := r.(transport := r.transport.Noting(Took(x)));
    TookCalm(r.transport, x);
    var overfull := Overfull(r0, k, x.bytes);
    var r1 := if overfull then ScheduleFlush(r0, k, false) else r0;
    assert CalmRuntime(r, r0);
    ScheduleCalm(r0, k, false);
    var buffer := if !overfull && k in r1.buffers then r1.buffers[k] else Buffer([], 0);
    OneMark(r1, Admit(r1, x, buffer), k);
    hide CalmRuntime, Admit;
    if overfull {
      CalmTrans(r, r0, r1);
    }
    CalmTrans(r, r1, Admit(r1, x, buffer));
  }

  lemma RestoreCalm(r: Runtime, k: Key, terminal: Record)
    ensures CalmRuntime(r, RestoreTerminal(r, k, terminal).0)
  {
    hide Calm, TerminalOf, MarkGap;
    OneMark(r, r, k);
    var r1 := if Overfull(r, k, terminal.bytes) then Mark(DropBuffer(r, k), k) else r;
    OneMark(r, r1, k);
    var restored := RestoreTerminal(r, k, terminal).0;
    if TerminalOf(BufferedRecords(r, k)).None? {
      OneMark(r1, restored, k);
      CalmTrans(r, r1, restored);
    }
  }

  lemma CompleteCalm(r: Runtime, k: Key, pick: Option<Key>)
    requires k in r.inFlight && r.inFlight[k].stage.Settled?
    ensures CalmRuntime(r, Complete(r, k, pick))
  {
    ReleaseCalm(r, k);
    hide Calm, CalmRuntime, ScheduleFlush, Release, FirstDeferred, Without;
    var released := Release(r, k);
    var end := Complete(r, k, pick);
    var checked := released.(postPending := released.postPending - {k});
    var first := FirstDeferred(released.deferred, released.inFlight.Keys);
    if k in released.postPending {
      ScheduleOn(r, released, checked, k);
    } else if r.inFlight[k].stage.result.FullyDelivered? {
      if first.Some? {
        ScheduleOn(r, released, released.(deferred := Without(released.deferred, first.value)), first.value);
      } else if pick.Some? {
        ScheduleOn(r, released, released, pick.value);
      }
    }
  }

  lemma ScheduleOn(r: Runtime, released: Runtime, s: Runtime, k: Key)
    requires CalmRuntime(r, released) && s.transport == released.transport && s.inFlight == released.inFlight
    ensures CalmRuntime(r, ScheduleFlush(s, k, true))
  {
    OneMark(released, s, k);
    hide CalmRuntime, ScheduleFlush, MarkGap;
    ScheduleCalm(s, k, true);
    CalmTrans(r, released, s);
    CalmTrans(r, s, ScheduleFlush(s, k, true));
  }

  lemma ReleaseCalm(r: Runtime, k: Key)
    requires k in r.inFlight && r.inFlight[k].stage.Settled?
    ensures CalmRuntime(r, Release(r, k))
  {
    hide Calm, TerminalOf, MarkGap, RestoreTerminal;
    var f := r.inFlight[k];
    var r1 := if |f.records| > 0 then r.(retained := r.retained - f.bytes) else r;
    OneMark(r, r1, k);
    if TerminalOf(f.records).Some? && f.stage.result.NotStarted? {
      RestoreCalm(r1, k, TerminalOf(f.records).value);
      CalmTrans(r, r1, RestoreTerminal(r1, k, TerminalOf(f.records).value).0);
    }
    var r2 := RestoreUnsent(r1, k, f);
    assert CalmRuntime(r, r2);
  }

  // ----- the steps of a flush -----

  lemma SetStageOk(r: Runtime, k: Key, stage: Stage, t: State)
    requires GapsOk(r) && k in r.inFlight && Calm(r.transport, t)
    requires stage.Writing? ==> FlightFine(stage.flight, t)
    ensures GapsOk(SetStage(r, k, stage, t))
  {
    hide GapsTold, FlightFine;
  }

  lemma BeginGaps(t: State, k: Key, records: seq<Record>, build: Option<seq<seq<Event>>>)
    requires GapsTold(t) && (build.Some? ==> ValidBuild(EventsFor(t, k, records), build.value))
    ensures var (t', begun) := Begin(t, k, records, false, build);
            Calm(t, t') && (begun.Flying? ==> FlightFine(begun.flight, t'))
  {
    BeginOk(t, k, records, false, build);
    MarkCalm(t, k);
    hide MarkGap, OwedGaps, NoticeConfirmed;
    if k in t.pending {
      assert EventsFor(t, k, records)[0] == GapNotice(k);
    }
  }

  lemma StartGaps(t: State, f: Flight)
    requires GapsTold(t) && FlightFine(f, t) && f.next < |f.chunks| && !f.writing
    ensures var (t', f') := StartWrite(t, f); Calm(t, t') && FlightFine(f', t')
  {
    hide FlattenFrom, ValidBuild;
    StartWriteOk(t, f);
  }

  lemma SettleGaps(t: State, f: Flight, ok: bool)
    requires GapsTold(t) && FlightFine(f, t) && f.writing && f.next < |f.chunks| && t.active > 0
    ensures var (t', f') := SettleWrite(t, f, ok); Calm(t, t') && FlightFine(f', t')
  {
    hide ValidBuild, OwedGaps, ReportsConfirmed, StateOk;
    SettleCalm(t, f, ok);
    assert FlattenFrom(f.chunks, f.next) == f.chunks[f.next] + FlattenFrom(f.chunks, f.next + 1);
  }

  lemma SettleCalm(t: State, f: Flight, ok: bool)
    requires f.writing && f.next < |f.chunks| && t.active > 0
    ensures Calm(t, SettleWrite(t, f, ok).0)
  {
    hide FlattenFrom, ValidBuild;
  }

  /** Delivering one flight is nothing to another: at most its stamp is no longer pending. */
  lemma DeliveredFine(t: State, f: Flight, g: Flight)
    requires FlightFine(g, t) && f.next == |f.chunks| == f.delivered && !f.writing && f.started > 0
    ensures FlightFine(g, Finish(t, f).0)
  {
    hide FlattenFrom, ValidBuild;
  }

  lemma NoticeIsConfirmed(t: State, f: Flight)
    requires FlightFine(f, t) && f.next == |f.chunks| == f.delivered
    requires f.seen.Some? && Get(t.pending, f.key) == f.seen
    ensures NoticeConfirmed(t.log, f.key)
  {
    assert FlattenFrom(f.chunks, f.next) == [];
    hide FlightOk, FlattenFrom, NoticeConfirmed;
  }

  /** A delivery that clears a gap was preceded by the confirmation of its notice. */
  lemma DeliveredTold(t: State, f: Flight)
    requires GapsTold(t) && FlightFine(f, t) && f.next == |f.chunks| == f.delivered && !f.writing && f.started > 0
    ensures GapsTold(Finish(t, f).0)
  {
    hide StateOk, FlightFine, NoticeConfirmed;
    FinishOk(t, f);
    if Get(t.pending, f.key) == f.seen {
      if f.seen.None? {
        assert t.pending - {f.key} == t.pending;
      } else {
        NoticeIsConfirmed(t, f);
        assert (t.pending - {f.key}).Keys == t.pending.Keys - {f.key};
      }
    }
  }

  lemma FinishGaps(t: State, f: Flight)
    requires GapsTold(t) && FlightFine(f, t) && f.next == |f.chunks| && !f.writing
    ensures Calm(t, Finish(t, f).0)
  {
    MarkCalm(t, f.key);
    hide GapsTold, FlightFine, MarkGap;
    var t' := Finish(t, f).0;
    if f.started > 0 && f.delivered == |f.chunks| {
      DeliveredTold(t, f);
      forall g | FlightFine(g, t)
        ensures FlightFine(g, t')
      {
        DeliveredFine(t, f, g);
      }
    }
  }

  lemma StepKeepsGapsOk(r: Runtime, step: Step)
    requires GapsOk(r) && Enabled(r, step)
    ensures GapsOk(Do(r, step))
  {
    hide FlightFine, Calm, GapsTold, CalmRuntime, Append, ScheduleFlush, Complete, Begin, StartWrite, SettleWrite, Finish, Release;
    match step
    case DoAppend(x) =>
      AppendCalm(r, x);
      CalmKeeps(r, Append(r, x));
    case DoSchedule(k, force) =>
      ScheduleCalm(r, k, force);
      CalmKeeps(r, ScheduleFlush(r, k, force));
    case DoComplete(k, pick) =>
      CompleteCalm(r, k, pick);
      CalmKeeps(r, Complete(r, k, pick));
    case DoBegin(k, build) =>
      BeginGaps(r.transport, k, r.inFlight[k].records, build);
      var (t, begun) := Begin(r.transport, k, r.inFlight[k].records, false, build);
      SetStageOk(r, k, if begun.Flying? then Writing(begun.flight) else Settled(begun.result), t);
    case DoStartChunk(k) =>
      StartGaps(r.transport, r.inFlight[k].stage.flight);
      var (t, f) := StartWrite(r.transport, r.inFlight[k].stage.flight);
      SetStageOk(r, k, Writing(f), t);
    case DoSettleChunk(k, ok) =>
      SettleGaps(r.transport, r.inFlight[k].stage.flight, ok);
      var (t, f) := SettleWrite(r.transport, r.inFlight[k].stage.flight, ok);
      SetStageOk(r, k, Writing(f), t);
    case DoFinish(k) =>
      FinishGaps(r.transport, r.inFlight[k].stage.flight);
      var (t, result) := Finish(r.transport, r.inFlight[k].stage.flight);
      SetStageOk(r, k, Settled(result), t);
  }

  lemma {:induction false} RunKeepsGapsOk(start: Runtime, steps: seq<Step>)
    requires GapsOk(start) && IsRun(start, steps)
    ensures GapsOk(After(start, steps))
    decreases |steps|
  {
    hide GapsOk, Enabled, Do;
    if |steps| > 0 {
      StepKeepsGapsOk(start, steps[0]);
      RunKeepsGapsOk(Do(start, steps[0]), steps[1..]);
    }
  }

  lemma ReachableGapsOk(r: Runtime)
    requires Reachable(r)
    ensures GapsOk(r)
  {
    hide IsRun, After;
    var steps :| IsRun(INITIAL, steps) && After(INITIAL, steps) == r;
    RunKeepsGapsOk(INITIAL, steps);
  }

  /** In every reachable state the transport's table of gaps is what the history owes. */
  lemma PendingIsOwed(r: Runtime)
    requires Reachable(r)
    ensures r.transport.pending.Keys == OwedGaps(r.transport.log)
    ensures ReportsConfirmed(r.transport.log)
  {
    hide Reachable;
    ReachableGapsOk(r);
  }

  // ----- the fate of one mark -----

  /** The history as it was before note `j`. */
  function Before(h: History, j: nat): History
    requires j <= |Notes(h)|
  {
    if j == |Notes(h)| then h else Before(h.past, j)
  }

  ghost predicate MarkedAt(h: History, j: int, k: Key) {
    0 <= j < |Notes(h)| && Notes(h)[j] == Marked(k)
  }

  /** Mark `j` was not remembered: the key is invalid, or 256 other sessions had gaps not reported yet. */
  ghost predicate Refused(h: History, j: nat, k: Key)
    requires j <= |Notes(h)|
  {
    !ValidKey(k) || (k !in OwedGaps(Before(h, j)) && |OwedGaps(Before(h, j))| >= MAX_PENDING_GAPS)
  }

  ghost predicate NoticeAt(h: History, c: int, k: Key) {
    0 <= c < |Notes(h)| && Notes(h)[c].Confirmed? && GapNotice(k) in Notes(h)[c].events
  }

  ghost predicate ReportAt(h: History, d: int, k: Key) {
    0 <= d < |Notes(h)| && Notes(h)[d].Delivered? && Notes(h)[d].reported == Some(k)
  }

  /** After note `j` the notice of the gap was confirmed, and then the flush that carried it delivered. */
  ghost predicate ReportedAfter(h: History, j: nat, k: Key) {
    exists c, d :: j < c < d && NoticeAt(h, c, k) && ReportAt(h, d, k)
  }

  lemma ReportedStays(h: History, j: nat, k: Key)
    requires h.Then? && ReportedAfter(h.past, j, k)
    ensures ReportedAfter(h, j, k)
  {
    var c, d :| j < c < d && NoticeAt(h.past, c, k) && ReportAt(h.past, d, k);
    assert NoticeAt(h, c, k) && ReportAt(h, d, k);
  }

  lemma {:induction false} NoticeSince(h: History, j: nat, k: Key) returns (c: nat)
    requires MarkedAt(h, j, k) && NoticeConfirmed(h, k)
    ensures c > j && NoticeAt(h, c, k)
  {
    if h.note.Confirmed? && GapNotice(k) in h.note.events {
      c := |Notes(h)| - 1;
    } else {
      assert j < |Notes(h.past)|;
      c := NoticeSince(h.past, j, k);
    }
  }

  /** A mark is refused, or its gap is still owed, or it has been reported since. */
  lemma {:induction false} MarkFate(h: History, j: nat, k: Key)
    requires ReportsConfirmed(h) && MarkedAt(h, j, k)
    ensures k in OwedGaps(h) || Refused(h, j, k) || ReportedAfter(h, j, k)
  {
    if j < |Notes(h)| - 1 {
      assert MarkedAt(h.past, j, k);
      MarkFate(h.past, j, k);
      if ReportedAfter(h.past, j, k) {
        ReportedStays(h, j, k);
      } else if k in OwedGaps(h.past) && k !in OwedGaps(h) {
        var c := NoticeSince(h.past, j, k);
        assert NoticeAt(h, c, k) && ReportAt(h, |Notes(h)| - 1, k);
      }
    } else {
      assert Before(h, j) == h.past;
    }
  }

  // ----- every record -----

  ghost predicate DeliveredAfter(h: History, i: nat, x: Record) {
    exists j :: i < j < |Notes(h)| && Notes(h)[j].Delivered? && x in Notes(h)[j].records
  }

  /** Mark `j` was remembered: its gap is pending still, or was reported after it. */
  ghost predicate GapTold(r: Runtime, j: nat, k: Key) {
    k in r.transport.pending || ReportedAfter(r.transport.log, j, k)
  }

  /**
   * No unreported loss: in every reachable state, a record taken in is held, or
   * was fully delivered since, or its session was marked since; and the gap of
   * that mark is pending, or a delivered flush reported it after the mark, or the
   * mark was refused, for an invalid key or with 256 other sessions marked.
   */
  lemma NoUnreportedLoss(r: Runtime, i: nat, x: Record)
    requires Reachable(r)
    requires i < |Notes(r.transport.log)| && Notes(r.transport.log)[i] == Took(x)
    ensures var h := r.transport.log;
            || RuntimeHistory.HeldBy(r, x) || DeliveredAfter(h, i, x)
            || exists j: nat | j > i && MarkedAt(h, j, x.key) :: GapTold(r, j, x.key) || Refused(h, j, x.key)
  {
    hide Reachable, OwedGaps, ReportsConfirmed, ReportedAfter, RuntimeHistory.HeldBy;
    var h := r.transport.log;
    NoSilentLoss(r, i, x);
    PendingIsOwed(r);
    if SettledAfter(Notes(h), i, x) {
      var j :| i < j < |Notes(h)| && Settles(Notes(h)[j], x);
      if Notes(h)[j].Marked? {
        MarkFate(h, j, x.key);
        assert MarkedAt(h, j, x.key);
      }
    }
  }

  /** And the other way round: what the transport still holds against a session was marked and not reported since. */
  lemma {:induction false} OwedWasMarked(h: History, k: Key) returns (j: nat)
    requires k in OwedGaps(h)
    ensures MarkedAt(h, j, k) && !Refused(h, j, k) && forall d :: d > j ==> !ReportAt(h, d, k)
  {
    var last := |Notes(h)| - 1;
    if h.note == Marked(k) && Room(k, OwedGaps(h.past)) {
      j := last;
      assert Before(h, last) == h.past;
    } else {
      j := OwedWasMarked(h.past, k);
      assert forall d :: d > j && ReportAt(h, d, k) ==> d == last || ReportAt(h.past, d, k);
    }
  }

  // ----- a mark can be refused -----

  /** Session `n` of the run below: one character, never the same twice. */
  function Name(n: nat): Key
    requires n < 1_000
  {
    Session([(65 + n) as char])
  }

  lemma NameValid(n: nat)
    requires n < 1_000
    ensures ValidKey(Name(n))
  {
    var s := Name(n).sessionID;
    assert CanonicalJson.Utf8Bytes(s) == CanonicalJson.Utf8Bytes(s[..0]) + CanonicalJson.Utf8Width(s[0]);
  }

  /** One of the sessions before session `n`. */
  predicate Earlier(k: Key, n: nat) {
    |k.sessionID| == 1 && k.sessionID[0] as int < 65 + n
  }

  ghost predicate Idle(r: Runtime) {
    r.buffers == map[] && r.inFlight == map[] && r.postPending == {} && r.deferred == [] && r.retained == 0
  }

  /** `n` sessions each lost their one record: nothing is held, and nothing was ever handed over. */
  ghost predicate LostEach(r: Runtime, n: nat)
    requires n < 1_000
  {
    && Idle(r) && TransportLost(r.transport, n)
  }

  function Marks(n: nat): nat {
    if n < MAX_PENDING_GAPS then n else MAX_PENDING_GAPS
  }

  ghost predicate TransportLost(t: State, n: nat)
    requires n < 1_000
  {
    && t.overflow.Drop?
    && |t.pending| == Marks(n)
    && (forall k <- t.pending :: Earlier(k, Marks(n)))
    && LogLost(t.log, n)
  }

  ghost predicate LogLost(h: History, n: nat)
    requires n < 1_000
  {
    && (forall x <- Taken(h) :: x.serial < n)
    && (n > 0 ==> Lost(n - 1) in Taken(h))
    && HandedRecords(h) == {}
  }

  function Lost(n: nat): Record
    requires n < 1_000
  {
    Record(Name(n), n, 100, false)
  }

  /** A record is appended, its flush scheduled, and its chunks cannot be built. */
  lemma LoseOne(r: Runtime, x: Record) returns (end: Runtime)
    requires Idle(r) && Reachable(r) && x.bytes == 100 && !x.terminal && x !in Taken(r.transport.log)
    ensures Idle(end) && Reachable(end)
    ensures end.transport == MarkGap(r.transport.Noting(Took(x)), x.key)
  {
    hide Reachable, MarkGap, Taken, ValidBuild;
    var k := x.key;
    assert [] + [x] == [x];
    ReachStep(r, DoAppend(x));
    var r1 := Append(r, x);
    assert r1.buffers == map[k := Buffer([x], 100)];
    ReachStep(r1, DoSchedule(k, true));
    var r2 := ScheduleFlush(r1, k, true);
    assert r2.buffers == map[] && r2.inFlight == map[k := Flush([x], 100, Queued)];
    end := FailFlush(r2, x);
  }

  lemma FailFlush(r: Runtime, x: Record) returns (end: Runtime)
    requires r.buffers == map[] && r.inFlight == map[x.key := Flush([x], 100, Queued)]
    requires r.postPending == {} && r.deferred == [] && r.retained == 100 && !x.terminal && Reachable(r)
    ensures Idle(end) && Reachable(end) && end.transport == MarkGap(r.transport, x.key)
  {
    hide Reachable, MarkGap, Taken, ValidBuild, ScheduleFlush;
    var k := x.key;
    ReachStep(r, DoBegin(k, None));
    var r1 := BeginFlush(r, k, None);
    assert r1.inFlight == map[k := Flush([x], 100, Settled(AttemptedFailure))];
    var released := Release(r1, k);
    assert released.inFlight == map[];
    ReachStep(r1, DoComplete(k, None));
    end := Complete(r1, k, None);
  }

  lemma LostOneMore(t: State, n: nat)
    requires n < 999 && TransportLost(t, n)
    ensures TransportLost(MarkGap(t.Noting(Took(Lost(n))), Name(n)), n + 1)
  {
    NameValid(n);
    LogLostMore(t.log, n);
    hide ValidKey, LogLost;
    var marked := MarkGap(t.Noting(Took(Lost(n))), Name(n));
    assert !Earlier(Name(n), Marks(n)) && Earlier(Name(n), n + 1);
    assert Name(n) !in t.pending;
    assert forall k <- marked.pending :: k in t.pending || k == Name(n);
    assert |marked.pending| == Marks(n + 1);
    assert forall k <- marked.pending :: Earlier(k, Marks(n + 1));
  }

  lemma LogLostMore(h: History, n: nat)
    requires n < 999 && LogLost(h, n)
    ensures LogLost(Then(Then(h, Took(Lost(n))), Marked(Name(n))), n + 1)
  {
    var h' := Then(Then(h, Took(Lost(n))), Marked(Name(n)));
    assert Taken(h') == Taken(h) + {Lost(n)};
    assert HandedRecords(h') == HandedRecords(h);
  }

  lemma LoseOneMore(r: Runtime, n: nat) returns (end: Runtime)
    requires n < 999 && LostEach(r, n) && Reachable(r)
    ensures LostEach(end, n + 1) && Reachable(end)
  {
    hide Reachable, Idle, MarkGap;
    LostOneMore(r.transport, n);
    end := LoseOne(r, Lost(n));
  }

  lemma {:induction false} LoseEach(n: nat) returns (r: Runtime)
    requires n < 999
    ensures LostEach(r, n) && Reachable(r)
  {
    if n == 0 {
      InitialReachable();
      r := INITIAL;
    } else {
      r := LoseEach(n - 1);
      r := LoseOneMore(r, n - 1);
    }
  }

  /**
   * The refusal is real: with 256 sessions marked, the 257th loses its record,
   * never handed over, and no gap of it is pending or was reported.
   */
  lemma MarkCanBeRefused()
    ensures exists r, x ::
              && Reachable(r) && x in Taken(r.transport.log) && x !in HandedRecords(r.transport.log)
              && !RuntimeHistory.HeldBy(r, x) && ValidKey(x.key) && x.key !in r.transport.pending
              && x.key !in OwedGaps(r.transport.log)
  {
    hide Reachable, OwedGaps, ValidKey;
    var r := LoseEach(257);
    var x := Lost(256);
    PendingIsOwed(r);
    NameValid(256);
    assert x.key !in r.transport.pending;
    assert !RuntimeHistory.HeldBy(r, x);
  }
}
