/** A run of the whole plugin in which a forgotten terminal leaves the retained-byte counter too high. */
module PluginDrift {
  // A session is deleted while a flush of it is pending.  1024 other deletions
  // push it out of the table of finalized sessions, a tool call opens it again,
  // and its eighth large record strands the terminal that still waits.

  import opened Util
  import opened InsertionMaps
  import opened Contracts
  import opened Transport
  import opened CaptureRuntime
  import opened RuntimeHistory
  import RuntimeBytes
  import RuntimeGaps
  import CanonicalJson
  import R = OpenCodeReducer
  import RS = ReducerSteps
  import RQ = ReducerQuota
  import RI = ReducerInvariant
  import RR = ReducerRuns
  import opened PluginEvents

  const SID := "s"
  const KEY := Session(SID)
  const TERMINAL := Record(KEY, 1, 44, true)

  lemma TerminalIsLast(records: seq<Record>, x: Record)
    ensures TerminalOf(records + [x]) == if x.terminal then Some(x) else TerminalOf(records)
  {
    assert (records + [x])[..|records|] == records;
  }

  // ----- one append and flush, seen from another session -----

  /** The buffer and the pending flush of `k` are as they were. */
  ghost predicate Untouched(r: Runtime, r': Runtime, k: Key) {
    Get(r'.buffers, k) == Get(r.buffers, k) && (k in r.inFlight ==> k in r'.inFlight)
  }

  lemma ScheduleUntouched(r: Runtime, j: Key, force: bool, k: Key)
    requires j != k
    ensures Untouched(r, ScheduleFlush(r, j, force), k)
  {
    hide TerminalOf, MarkGap;
  }

  lemma AppendUntouched(r: Runtime, x: Record, k: Key)
    requires x.key != k && RuntimeBytes.BytesOk(r)
    ensures Untouched(r, Append(r, x), k) && Append(r, x).retained <= r.retained + x.bytes
  {
    hide ScheduleFlush, MarkGap, RuntimeBytes.Sized, RuntimeBytes.Slack;
    var r0 := r.(transport := r.transport.Noting(Took(x)));
    RuntimeBytes.SameTables(r, r0);
    ScheduleUntouched(r0, x.key, false, k);
    RuntimeBytes.ScheduleFlushBytes(r0, x.key, false);
  }

  lemma EventUntouched(r: Runtime, x: Record, k: Key)
    requires x.key != k && RuntimeBytes.BytesOk(r)
    ensures var r' := ScheduleFlush(Append(r, x), x.key, true);
            Untouched(r, r', k) && r'.retained <= r.retained + x.bytes
  {
    hide ScheduleFlush, Append, RuntimeBytes.BytesOk;
    AppendUntouched(r, x, k);
    RuntimeBytes.AppendBytes(r, x);
    ScheduleUntouched(Append(r, x), x.key, true, k);
    RuntimeBytes.ScheduleFlushBytes(Append(r, x), x.key, true);
  }

  // ----- one deletion in a reducer without live sessions -----

  /** The table after one more deletion: the oldest entry goes when it is full. */
  function OneMore(order: seq<string>, sid: string): seq<string> {
    (if |order| == R.MAX_FINALIZED_SESSIONS then order[1..] else order) + [sid]
  }

  lemma DeletionRemembered(s: R.Reducer, sid: string)
    requires RS.ReducerOk(s) && s.sessions.Keys <= {sid} && s.stateBytes <= 1_000
    requires sid !in s.finalized.values && CanonicalJson.Utf8Bytes(sid) <= 4
    ensures var e := R.SessionDeleted(sid, None, false);
            && RQ.AcceptsDelete(s, e)
            && R.Reduce(s, e).0.sessions == map[]
            && R.Reduce(s, e).0.finalized.order == OneMore(s.finalized.order, sid)
  {
    hide RS.ReducerOk, R.Reduce, RQ.AcceptsDelete, InsertionMap.Remember, InsertionMap.Valid, CanonicalJson.Utf8Bytes;
    var e := R.SessionDeleted(sid, None, false);
    SmallAccepted(s, sid);
    AcceptedTable(s, e);
    RR.AcceptedDelete(s, e);
    var s' := R.Reduce(s, e).0;
    assert forall j :: j in s'.sessions ==> Get(s'.sessions, j) == Get(s.sessions, j);
    TableValid(s);
    RememberIs(s.finalized, sid, s'.finalized.values[sid]);
  }

  lemma SmallAccepted(s: R.Reducer, sid: string)
    requires s.sessions.Keys <= {sid} && s.stateBytes <= 1_000
    requires sid !in s.finalized.values && CanonicalJson.Utf8Bytes(sid) <= 4
    ensures RQ.AcceptsDelete(s, R.SessionDeleted(sid, None, false))
  {
    hide CanonicalJson.Utf8Bytes;
    assert sid !in s.sessions ==> s.sessions.Keys == {};
  }

  lemma AcceptedTable(s: R.Reducer, e: R.Event)
    requires RQ.AcceptsDelete(s, e)
    ensures RQ.Accepted(s, e).finalized == s.finalized
  {
    RR.AcceptedSessions(s, e);
  }

  lemma NoBytes(s: R.Reducer)
    requires RS.ReducerOk(s) && |s.sessions| == 0
    ensures s.stateBytes == 0
  {
  }

  lemma TableValid(s: R.Reducer)
    requires RS.ReducerOk(s)
    ensures s.finalized.Valid() && |s.finalized.order| <= R.MAX_FINALIZED_SESSIONS
  {
  }

  lemma RememberIs<V>(m: InsertionMap<string, V>, k: string, v: V)
    requires m.Valid() && k !in m.values && |m.order| <= R.MAX_FINALIZED_SESSIONS
    ensures m.Remember(k, v, R.MAX_FINALIZED_SESSIONS).order == OneMore(m.order, k)
  {
    WithoutAbsent(m.order, k);
    assert m.values - {k} == m.values;
    assert m.Delete(k) == m;
    MakeRoomIs(m, R.MAX_FINALIZED_SESSIONS);
  }

  /** Asking for the newest entry moves nothing. */
  lemma TouchNewest<V>(m: InsertionMap<string, V>, older: seq<string>, k: string)
    requires m.Valid() && m.order == older + [k]
    ensures m.Touch(k).order == m.order
  {
    assert k in m.order;
    assert forall i | 0 <= i < |older| :: m.order[i] == older[i] && m.order[|older|] == k;
    assert k !in older;
    WithoutConcat(older, [k], k);
    assert Without([k], k) == [];
    assert older + [] == older;
  }

  // ----- the other deletions -----

  /** The deleted session waits behind its flush; `n` other sessions were deleted since. */
  ghost predicate RuntimeWaits(r: Runtime, spent: nat, n: nat) {
    && KEY in r.inFlight && Get(r.buffers, KEY) == Some(Buffer([TERMINAL], 44))
    && r.retained <= spent
    && forall x <- Taken(r.transport.log) :: x.serial < n
  }

  predicate EarlierName(sid: string, n: nat) {
    |sid| == 1 && sid[0] as int < 200 + n
  }

  function Name(n: nat): string
    requires n < 2_000
  {
    [(200 + n) as char]
  }

  lemma NameShort(n: nat)
    requires n < 2_000
    ensures CanonicalJson.Utf8Bytes(Name(n)) <= 4
  {
    assert CanonicalJson.Utf8Bytes(Name(n)[..0]) == 0;
  }

  ghost predicate Waits(p: Plugin, n: nat) {
    && PluginReachable(p) && |p.reducer.sessions| == 0
    && |p.reducer.finalized.order| == n + 1 && p.reducer.finalized.order[0] == SID
    && (forall j <- p.reducer.finalized.order :: EarlierName(j, n))
    && RuntimeWaits(p.runtime, 85 + 45 * n, n + 2)
  }

  function Gone(n: nat): Record
    requires n < 2_000
  {
    Record(Session(Name(n)), n + 2, 45, true)
  }

  /** One more deletion: its record appended and flushed by force, its session the newest of the table. */
  lemma DeleteNext(p: Plugin, n: nat) returns (p': Plugin)
    requires n < 1_024 && Waits(p, n)
    ensures PluginReachable(p') && |p'.reducer.sessions| == 0
    ensures p'.reducer.finalized.order == OneMore(p.reducer.finalized.order, Name(n))
    ensures RuntimeWaits(p'.runtime, 85 + 45 * (n + 1), n + 3)
  {
    hide RS.ReducerOk, R.Reduce, Reachable, Append, ScheduleFlush, PluginReachable, RQ.AcceptsDelete, Taken, Reported, Handle,
         R.TouchFinalized, RuntimeBytes.BytesOk;
    var e := R.SessionDeleted(Name(n), None, false);
    var x := Gone(n);
    ReachableOk(p);
    TableValid(p.reducer);
    NoBytes(p.reducer);
    NameShort(n);
    assert !EarlierName(Name(n), n);
    DeletionRemembered(p.reducer, Name(n));
    ReportedIs(p.reducer, e);
    assert Encodes(x, R.SessionFinished(Name(n), None));
    assert x !in Taken(p.runtime.transport.log);
    assert CanMove(p, Observe(e, [x]));
    ReachNext(p, Observe(e, [x]));
    HandleOk(p, e, [x]);
    AcceptedIsAppended(p, e, [x]);
    RuntimeBytes.ReachableBytes(p.runtime);
    EventUntouched(p.runtime, x, KEY);
    DeletedReducer(p, e, [x]);
    p' := Handle(p, e, [x]);
  }

  lemma OnePasses(s: R.Reducer, r: R.Record)
    requires r.SessionFinished? || r.sessionID !in s.finalized.values
    ensures Filtered(s, [r]) == (s, [r])
  {
    assert [r][1..] == [];
    assert Filtered(s, []) == (s, []);
    assert [r] + [] == [r];
  }

  lemma TargetAsked(p: Plugin, e: R.Event, xs: seq<Record>)
    requires IsTarget(e)
    ensures Handle(p, e, xs).reducer == R.TouchFinalized(Reported(p.reducer, e).0, e.sessionID)
  {
    hide Reported, R.Reduce, R.TouchFinalized, AppendAll, ScheduleFlush, Worthwhile;
  }

  lemma TouchNewestEntry(s: R.Reducer, sid: string)
    requires s.finalized.Valid() && |s.finalized.order| > 0 && s.finalized.order[|s.finalized.order| - 1] == sid
    ensures R.TouchFinalized(s, sid).finalized.order == s.finalized.order
    ensures R.TouchFinalized(s, sid).sessions == s.sessions
  {
    hide InsertionMap.Touch, InsertionMap.Valid;
    var order := s.finalized.order;
    assert order == order[..|order| - 1] + [sid];
    TouchNewest(s.finalized, order[..|order| - 1], sid);
  }

  /** The filter asks for nothing, and the flush target is the newest entry already. */
  lemma DeletedReducer(p: Plugin, e: R.Event, xs: seq<Record>)
    requires RS.ReducerOk(p.reducer) && RQ.AcceptsDelete(p.reducer, e)
    requires var order := R.Reduce(p.reducer, e).0.finalized.order; |order| > 0 && order[|order| - 1] == e.sessionID
    ensures Handle(p, e, xs).reducer.finalized.order == R.Reduce(p.reducer, e).0.finalized.order
    ensures Handle(p, e, xs).reducer.sessions == R.Reduce(p.reducer, e).0.sessions
  {
    hide RS.ReducerOk, R.Reduce, RQ.AcceptsDelete, Filtered, Handle, R.TouchFinalized, InsertionMap.Valid;
    RR.AcceptedDelete(p.reducer, e);
    RQ.DeleteIsDelete(p.reducer, e);
    RQ.ReduceOk(p.reducer, e);
    var s := R.Reduce(p.reducer, e).0;
    TableValid(s);
    OnePasses(s, R.SessionFinished(e.sessionID, e.eventID));
    TargetAsked(p, e, xs);
    TouchNewestEntry(s, e.sessionID);
  }

  lemma WaitsOn(p: Plugin, p': Plugin, n: nat)
    requires n < 1_023 && Waits(p, n) && PluginReachable(p') && |p'.reducer.sessions| == 0
    requires p'.reducer.finalized.order == OneMore(p.reducer.finalized.order, Name(n))
    requires RuntimeWaits(p'.runtime, 85 + 45 * (n + 1), n + 3)
    ensures Waits(p', n + 1)
  {
    hide PluginReachable, RuntimeWaits;
    forall j <- p'.reducer.finalized.order
      ensures EarlierName(j, n + 1)
    {
      assert j in p.reducer.finalized.order || j == Name(n);
    }
  }

  // ----- the beginning of the run -----

  const IDLE := R.SessionEvent(SID, None, R.Idle)
  const FIRST := Record(KEY, 0, 41, false)

  lemma IdleReduced()
    ensures var (s, records) := R.Reduce(R.EMPTY, IDLE);
            && records == [R.Boundary(SID, None, R.Idle)]
            && s.sessions.Keys == {SID} && s.finalized == R.EMPTY.finalized && s.stateBytes <= 1_000
  {
    Utf8Small(0);
    hide CanonicalJson.Utf8Bytes;
    var boundary := R.Boundary(SID, None, R.Idle);
    var (reduced, records) := R.ReduceValue(R.EMPTY, IDLE);
    assert records == [boundary] && SID in reduced.sessions && reduced.sessions[SID].recordCount == 0;
    RQ.BoundedIsGroup(reduced, SID, records);
    assert !R.AllFinished(records) && R.Limit(records) >= 1 by {
      assert boundary in records;
    }
  }

  lemma {:induction false} DeleteOthers(n: nat) returns (p: Plugin)
    requires n <= 1_023
    ensures Waits(p, n)
  {
    hide Waits;
    if n == 0 {
      p := DeleteBehindFlush();
    } else {
      var before := DeleteOthers(n - 1);
      p := DeleteNext(before, n - 1);
      WaitsOn(before, p, n - 1);
    }
  }

  /** A first event of the session, its flush not begun yet. */
  lemma FlushPending() returns (p: Plugin)
    ensures PluginReachable(p)
    ensures p.reducer.sessions.Keys == {SID} && p.reducer.finalized == R.EMPTY.finalized && p.reducer.stateBytes <= 1_000
    ensures p.runtime == ScheduleFlush(Append(INITIAL, FIRST), KEY, true)
  {
    hide PluginReachable, R.Reduce, Append, ScheduleFlush;
    IdleReduced();
    StartReachable();
    var s := R.Reduce(R.EMPTY, IDLE).0;
    var boundary := R.Boundary(SID, None, R.Idle);
    OnePasses(s, boundary);
    assert CanMove(START, Observe(IDLE, [FIRST]));
    ReachNext(START, Observe(IDLE, [FIRST]));
    assert AppendAll(INITIAL, [FIRST]) == Append(INITIAL, FIRST) by {
      assert [FIRST][1..] == [];
      assert AppendAll(Append(INITIAL, FIRST), []) == Append(INITIAL, FIRST);
    }
    p := Handle(START, IDLE, [FIRST]);
  }

  lemma FlushPendingRuntime()
    ensures var r := ScheduleFlush(Append(INITIAL, FIRST), KEY, true);
            && r.buffers == map[] && r.inFlight == map[KEY := Flush([FIRST], 41, Queued)] && r.retained == 41
            && Taken(r.transport.log) == {FIRST}
  {
    hide MarkGap;
    assert [] + [FIRST] == [FIRST];
  }

  lemma TerminalBehind(r: Runtime)
    requires r.buffers == map[] && KEY in r.inFlight && r.retained == 41
    ensures var r' := ScheduleFlush(Append(r, TERMINAL), KEY, true);
            KEY in r'.inFlight && Get(r'.buffers, KEY) == Some(Buffer([TERMINAL], 44)) && r'.retained == 85
  {
    hide MarkGap, TerminalOf;
    TerminalIsLast([], TERMINAL);
    assert [] + [TERMINAL] == [TERMINAL];
  }

  /** The session is deleted; its terminal waits behind the flush. */
  lemma DeleteBehindFlush() returns (p: Plugin)
    ensures Waits(p, 0)
  {
    hide RS.ReducerOk, R.Reduce, Reachable, Append, ScheduleFlush, PluginReachable, RQ.AcceptsDelete, Taken, Reported, Handle,
         R.TouchFinalized;
    var before := FlushPending();
    var e := R.SessionDeleted(SID, None, false);
    ReachableOk(before);
    Utf8Small(0);
    FlushPendingRuntime();
    DeletionRemembered(before.reducer, SID);
    ReportedIs(before.reducer, e);
    assert Encodes(TERMINAL, R.SessionFinished(SID, None));
    assert CanMove(before, Observe(e, [TERMINAL]));
    ReachNext(before, Observe(e, [TERMINAL]));
    HandleOk(before, e, [TERMINAL]);
    AcceptedIsAppended(before, e, [TERMINAL]);
    TerminalBehind(before.runtime);
    DeletedReducer(before, e, [TERMINAL]);
    p := Handle(before, e, [TERMINAL]);
    assert p.reducer.finalized.order == [SID];
  }

  /** The 1024th other deletion takes the session out of the table of finalized sessions. */
  lemma Forget() returns (p: Plugin)
    ensures PluginReachable(p) && |p.reducer.sessions| == 0 && SID !in p.reducer.finalized.values
    ensures RuntimeWaits(p.runtime, 46_165, 1_026)
  {
    hide PluginReachable, RuntimeWaits, RS.ReducerOk, PluginOk;
    var before := DeleteOthers(1_023);
    p := DeleteNext(before, 1_023);
    ReachableOk(before);
    ReachableOk(p);
    OkTable(before);
    OkTable(p);
    var order := before.reducer.finalized.order;
    assert forall i | 0 < i < |order| :: order[i] != order[0];
    assert p.reducer.finalized.order == order[1..] + [Name(1_023)];
  }

  lemma OkTable(p: Plugin)
    requires PluginOk(p)
    ensures p.reducer.finalized.Valid()
  {
  }

  // ----- the session again -----

  /** With an input this long the record of the call takes 64 KiB, the largest there is. */
  function LongInput(): string {
    seq(65_430, i requires 0 <= i < 65_430 => 'a')
  }

  function Call(n: nat): R.ToolCall
    requires n < 2_000
  {
    R.ToolCall(Name(n), "t", R.Pending, R.Digestible(LongInput()))
  }

  /** The session is not finalized; it is live with `n` calls, or may be opened. */
  ghost predicate Roomy(s: R.Reducer, n: nat) {
    && SID !in s.finalized.values && s.stateBytes <= 1_000 * n
    && (n == 0 ==> |s.sessions| == 0)
    && (n > 0 ==> SID in s.sessions && SessionRoomy(s.sessions[SID], n))
  }

  ghost predicate SessionRoomy(x: R.Session, n: nat) {
    && !x.disabled && !x.overflowReported && x.recordCount <= n + 1 && |x.calls| <= n
    && forall c <- x.calls :: EarlierName(c, n)
  }

  lemma Utf8Small(n: nat)
    requires n < 2_000
    ensures CanonicalJson.Utf8Bytes(SID) <= 4 && R.CallOverhead(Call(n)) <= 200
  {
    NameShort(n);
    assert CanonicalJson.Utf8Bytes("t"[..0]) == 0 && CanonicalJson.Utf8Bytes("s"[..0]) == 0;
  }

  lemma Opened(s: R.Reducer, n: nat)
    requires RS.ReducerOk(s) && Roomy(s, n) && n < 10
    ensures R.CanOpen(s, SID)
    ensures var s' := R.OpenSession(s, SID);
            && s'.finalized == s.finalized && s'.stateBytes <= 1_000 * n + 300 && s'.evict == {}
            && SID in s'.sessions && SessionRoomy(s'.sessions[SID], n)
    ensures SID in s.sessions ==> !s.sessions[SID].disabled && !s.sessions[SID].deleted
  {
    hide RI.CallsOk, RI.StreamOk, CanonicalJson.Utf8Bytes, SumOver;
    Utf8Small(n);
    if SID in s.sessions {
      assert RI.SessionOk(SID, s.sessions[SID]);
    }
  }

  lemma CallAdded(s: R.Reducer, n: nat)
    requires SID in s.sessions && SessionRoomy(s.sessions[SID], n) && s.stateBytes <= 1_000 * n + 300 && n < 10
    ensures var (s', records) := R.ReduceCall(s, SID, None, Call(n));
            && records == [R.ToolStarted(SID, None, Name(n), "t", Some(LongInput()))]
            && s'.finalized == s.finalized && s'.stateBytes <= 1_000 * (n + 1) && s'.evict == s.evict
            && SID in s'.sessions && SessionRoomy(s'.sessions[SID], n + 1)
            && s'.sessions[SID].recordCount <= n + 1
  {
    Utf8Small(n);
    hide CanonicalJson.Utf8Bytes;
    assert !EarlierName(Name(n), n) && EarlierName(Name(n), n + 1);
  }

  /** A new call of the session, which it opens if need be, is reported as started. */
  lemma NewCallProposed(s: R.Reducer, n: nat)
    requires RS.ReducerOk(s) && Roomy(s, n) && n < 10
    ensures var e := R.ToolUpdated(SID, None, false, Some(Call(n)));
            var (s', records) := R.ReduceValue(s, e);
            && records == [R.ToolStarted(SID, None, Name(n), "t", Some(LongInput()))]
            && s'.finalized == s.finalized && s'.stateBytes <= 1_000 * (n + 1) && s'.evict == {}
            && SID in s'.sessions && SessionRoomy(s'.sessions[SID], n + 1)
            && s'.sessions[SID].recordCount <= n + 1
  {
    hide RS.ReducerOk, R.OpenSession, R.CanOpen, R.ReduceCall, SessionRoomy, R.Degrade;
    Opened(s, n);
    CallAdded(R.OpenSession(s, SID), n);
  }

  lemma NewCallReduced(s: R.Reducer, n: nat)
    requires RS.ReducerOk(s) && Roomy(s, n) && n < 10
    ensures var (s', records) := R.Reduce(s, R.ToolUpdated(SID, None, false, Some(Call(n))));
            && records == [R.ToolStarted(SID, None, Name(n), "t", Some(LongInput()))]
            && Roomy(s', n + 1)
  {
    hide RS.ReducerOk, R.ReduceValue;
    NewCallProposed(s, n);
    var (reduced, records) := R.ReduceValue(s, R.ToolUpdated(SID, None, false, Some(Call(n))));
    var started := R.ToolStarted(SID, None, Name(n), "t", Some(LongInput()));
    RQ.BoundedIsGroup(reduced, SID, records);
    assert !R.AllFinished(records) && !R.AllDegraded(records) by {
      assert started in records;
    }
    RQ.EvictNothing(R.BoundedRecords(reduced, records).0);
  }

  /** `n` records of 64 KiB stand behind the terminal. */
  ghost predicate Filled(r: Runtime, n: nat) {
    && KEY in r.inFlight && |BufferedRecords(r, KEY)| > 0
    && TerminalOf(BufferedRecords(r, KEY)) == Some(TERMINAL)
    && r.buffers[KEY].bytes == 44 + n * MAX_CAPTURE_EVENT_BYTES
    && r.retained <= 46_165 + n * MAX_CAPTURE_EVENT_BYTES
    && forall x <- Taken(r.transport.log) :: x.serial < 1_026 + n
  }

  ghost predicate Reopened(p: Plugin, n: nat) {
    PluginReachable(p) && Roomy(p.reducer, n) && Filled(p.runtime, n)
  }

  function Large(n: nat): Record {
    Record(KEY, 1_026 + n, MAX_CAPTURE_EVENT_BYTES, false)
  }

  /** Call `n` of the session starts, with an input that makes its record as large as a record can be. */
  lemma CallMoves(p: Plugin, n: nat) returns (p': Plugin)
    requires n < 10 && PluginReachable(p) && Roomy(p.reducer, n)
    requires forall x <- Taken(p.runtime.transport.log) :: x.serial < 1_026 + n
    ensures PluginReachable(p') && Roomy(p'.reducer, n + 1) && p'.runtime == Append(p.runtime, Large(n))
  {
    hide RS.ReducerOk, R.Reduce, Append, PluginReachable, Taken, Roomy, Reachable;
    var e := R.ToolUpdated(SID, None, false, Some(Call(n)));
    var started := R.ToolStarted(SID, None, Name(n), "t", Some(LongInput()));
    var xs := [Large(n)];
    ReachableOk(p);
    NewCallReduced(p.reducer, n);
    var s := R.Reduce(p.reducer, e).0;
    RoomyIsOpen(s, n + 1);
    OnePasses(s, started);
    assert CanMove(p, Observe(e, xs));
    ReachNext(p, Observe(e, xs));
    assert AppendAll(p.runtime, xs) == Append(p.runtime, Large(n)) by {
      assert xs[1..] == [];
      assert AppendAll(Append(p.runtime, Large(n)), []) == Append(p.runtime, Large(n));
    }
    p' := Handle(p, e, xs);
  }

  lemma RoomyIsOpen(s: R.Reducer, n: nat)
    requires Roomy(s, n)
    ensures SID !in s.finalized.values
  {
  }

  lemma FillOnce(r: Runtime, n: nat)
    requires Filled(r, n) && n < 7
    ensures Filled(Append(r, Large(n)), n + 1)
  {
    hide TerminalOf, MarkGap, ScheduleFlush;
    TerminalIsLast(BufferedRecords(r, KEY), Large(n));
  }

  lemma {:induction false} Fill(n: nat) returns (p: Plugin)
    requires n <= 7
    ensures Reopened(p, n)
  {
    hide PluginReachable, Append;
    if n == 0 {
      p := Forget();
      OpenAgain(p);
    } else {
      var before := Fill(n - 1);
      p := CallMoves(before, n - 1);
      FillOnce(before.runtime, n - 1);
    }
  }

  lemma OpenAgain(p: Plugin)
    requires PluginReachable(p) && |p.reducer.sessions| == 0 && SID !in p.reducer.finalized.values
    requires RuntimeWaits(p.runtime, 46_165, 1_026)
    ensures Roomy(p.reducer, 0) && Filled(p.runtime, 0)
  {
    hide PluginReachable;
    ReachableOk(p);
    NoBytes(p.reducer);
    TerminalIsLast([], TERMINAL);
    assert [] + [TERMINAL] == [TERMINAL];
  }

  /**
   * The condition is needed: in a run of the whole plugin the session's entry is
   * pushed out while its terminal waits, and 44 bytes stay counted for good.
   */
  lemma CounterCanDrift()
    ensures exists p :: PluginReachable(p) && RuntimeBytes.Slack(p.runtime) >= 44
  {
    hide PluginReachable, Append, TerminalOf, RuntimeBytes.Slack, Reachable;
    var before := Fill(7);
    ReachableOk(before);
    var p := CallMoves(before, 7);
    RuntimeBytes.ReachableBytes(before.runtime);
    assert RuntimeBytes.Leaks(before.runtime, Large(7)) && RuntimeBytes.LeakedBytes(before.runtime, Large(7)) == 44;
    RuntimeBytes.AppendBytes(before.runtime, Large(7));
  }
}
