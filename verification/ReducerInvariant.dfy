/** What every event leaves true of the OpenCode reducer. */
module ReducerInvariant {
  import opened Util
  import opened InsertionMaps
  import opened OpenCodeReducer

  // ----- the records of one call -----

  predicate OfCall(r: Record, c: string) {
    (r.ToolStarted? || r.ToolFinished?) && r.callID == c
  }

  /** The records of call `c` in a stream, in order. */
  function Trace(stream: seq<Record>, c: string): seq<Record> {
    if |stream| == 0 then []
    else Trace(stream[..|stream| - 1], c) + if OfCall(stream[|stream| - 1], c) then [stream[|stream| - 1]] else []
  }

  /** A prefix of `tool_started`, `tool_finished`. */
  predicate Lifecycle(trace: seq<Record>) {
    |trace| <= 2 && (|trace| >= 1 ==> trace[0].ToolStarted?) && (|trace| == 2 ==> trace[1].ToolFinished?)
  }

  /** The records say what the call did: its outcome, and the input its identity was taken from. */
  predicate Faithful(call: Call, trace: seq<Record>)
    requires Lifecycle(trace)
  {
    && (|trace| == 2 ==> trace[1].succeeded == call.status.Completed?)
    && (|trace| >= 1 && call.identity.Exact? ==>
          trace[0].input == Some(call.identity.text) && trace[0].tool == call.identity.tool)
  }

  /** How many records a call at its present status has emitted. */
  function Emitted(calls: map<string, Call>, c: string): nat {
    if c !in calls then 0 else if Terminal(calls[c].status) then 2 else 1
  }

  lemma TraceSnoc(stream: seq<Record>, r: Record, c: string)
    ensures Trace(stream + [r], c) == Trace(stream, c) + if OfCall(r, c) then [r] else []
  {
    assert (stream + [r])[..|stream|] == stream;
  }

  lemma {:induction false} TraceConcat(a: seq<Record>, b: seq<Record>, c: string)
    ensures Trace(a + b, c) == Trace(a, c) + Trace(b, c)
    decreases |b|
  {
    if |b| == 0 {
      assert a + b == a;
    } else {
      var front, last := b[..|b| - 1], b[|b| - 1];
      assert a + b == (a + front) + [last];
      TraceConcat(a, front, c);
      TraceSnoc(a + front, last, c);
    }
  }

  // ----- the invariant of one session -----

  ghost predicate Degraded(stream: seq<Record>) {
    exists r <- stream :: r.CoverageDegraded?
  }

  /** Call `c` followed its lifecycle, and while the session is enabled its records match its status. */
  ghost predicate CallOk(calls: map<string, Call>, disabled: bool, stream: seq<Record>, c: string) {
    && Lifecycle(Trace(stream, c))
    && (!disabled ==> |Trace(stream, c)| == Emitted(calls, c) && (c in calls ==> Faithful(calls[c], Trace(stream, c))))
  }

  ghost predicate CallsOk(calls: map<string, Call>, disabled: bool, stream: seq<Record>) {
    forall c :: CallOk(calls, disabled, stream, c)
  }

  ghost predicate StreamOk(sid: string, stream: seq<Record>) {
    forall r <- stream :: r.sessionID == sid && !r.SessionFinished?
  }

  /** The counters and bounds of a live session between events, its calls and its disabling aside. */
  ghost predicate CountsOk(sid: string, x: Session) {
    && !x.deleted
    && x.recordCount == |x.stream| < MAX_REDUCED_RECORDS_PER_SESSION
    && StreamOk(sid, x.stream)
    && (x.overflowReported ==> x.disabled)
    && (x.overflowReported || x.recordCount == MAX_REDUCED_RECORDS_PER_SESSION - 1 ==> Degraded(x.stream))
    && |x.calls| <= MAX_CALLS_PER_SESSION && |x.events| <= MAX_EVENT_IDS_PER_SESSION
  }

  ghost predicate SessionOk(sid: string, x: Session) {
    CountsOk(sid, x) && (x.disabled ==> Degraded(x.stream)) && CallsOk(x.calls, x.disabled, x.stream)
  }

  /** A session that has proposed `records`: it is in order once they are admitted. */
  ghost predicate Ready(sid: string, x: Session, records: seq<Record>) {
    && CountsOk(sid, x) && StreamOk(sid, records)
    && (x.disabled ==> Degraded(x.stream + records))
    && CallsOk(x.calls, x.disabled, x.stream + records)
  }

  lemma DegradedMore(a: seq<Record>, b: seq<Record>)
    ensures Degraded(a) ==> Degraded(a + b)
    ensures Degraded(b) ==> Degraded(a + b)
  {
    assert forall r <- a :: r in a + b;
    assert forall r <- b :: r in a + b;
  }

  lemma StreamMore(sid: string, a: seq<Record>, b: seq<Record>)
    requires StreamOk(sid, a) && StreamOk(sid, b)
    ensures StreamOk(sid, a + b)
  {
  }

  /** Suppressing the last records leaves every call a prefix of its lifecycle. */
  lemma SuppressedCallsOk(calls: map<string, Call>, disabled: bool, stream: seq<Record>, records: seq<Record>)
    requires CallsOk(calls, disabled, stream + records)
    ensures CallsOk(calls, true, stream)
  {
    forall c
      ensures CallOk(calls, true, stream, c)
    {
      assert CallOk(calls, disabled, stream + records, c);
      TraceConcat(stream, records, c);
    }
  }

  /** A record that is of no call changes no trace. */
  lemma OtherRecord(calls: map<string, Call>, disabled: bool, stream: seq<Record>, r: Record)
    requires CallsOk(calls, disabled, stream) && !r.ToolStarted? && !r.ToolFinished?
    ensures CallsOk(calls, disabled, stream + [r])
  {
    forall c
      ensures CallOk(calls, disabled, stream + [r], c)
    {
      assert CallOk(calls, disabled, stream, c);
      TraceSnoc(stream, r, c);
    }
  }

  lemma DisabledCallsOk(calls: map<string, Call>, disabled: bool, stream: seq<Record>)
    requires CallsOk(calls, disabled, stream)
    ensures CallsOk(calls, true, stream)
  {
    assert forall c :: CallOk(calls, disabled, stream, c) ==> CallOk(calls, true, stream, c);
  }

  lemma ReadyNothing(sid: string, x: Session)
    requires SessionOk(sid, x)
    ensures Ready(sid, x, [])
  {
    assert x.stream + [] == x.stream;
  }

  lemma ReadyOther(sid: string, x: Session, disabled: bool, r: Record)
    requires SessionOk(sid, x) && r.sessionID == sid
    requires r.Boundary? || r.CoverageDegraded?
    requires disabled ==> x.disabled || r.CoverageDegraded?
    requires x.disabled ==> disabled
    ensures Ready(sid, x.(disabled := disabled), [r])
  {
    DegradedMore(x.stream, [r]);
    if disabled {
      DisabledCallsOk(x.calls, x.disabled, x.stream);
    }
    OtherRecord(x.calls, disabled, x.stream, r);
    assert r.CoverageDegraded? ==> Degraded([r]) by {
      assert r in [r];
    }
  }

  // ----- what the quota does to a ready session -----

  lemma AdmittedOk(sid: string, x: Session, records: seq<Record>)
    requires Ready(sid, x, records) && |records| > 0
    requires !x.overflowReported && x.recordCount + |records| <= Limit(records)
    ensures SessionOk(sid, x.(recordCount := x.recordCount + |records|, stream := x.stream + records))
  {
    hide CallsOk;
    assert !records[0].SessionFinished?;
    StreamMore(sid, x.stream, records);
    DegradedMore(x.stream, records);
    if AllDegraded(records) {
      assert records[0] in records;
    }
  }

  lemma SuppressedOk(sid: string, x: Session, records: seq<Record>)
    requires Ready(sid, x, records)
    ensures var y := x.(disabled := true, overflowReported := true);
            var notice := CoverageDegraded(sid, Overflow);
            if x.recordCount < MAX_REDUCED_RECORDS_PER_SESSION - 1
            then SessionOk(sid, y.(recordCount := x.recordCount + 1, stream := x.stream + [notice]))
            else SessionOk(sid, y)
  {
    var notice := CoverageDegraded(sid, Overflow);
    SuppressedCallsOk(x.calls, x.disabled, x.stream, records);
    OtherRecord(x.calls, true, x.stream, notice);
    assert notice in x.stream + [notice];
    hide CallsOk;
  }

  lemma ClosedOk(sid: string, x: Session, records: seq<Record>)
    requires Ready(sid, x, records) && x.overflowReported
    ensures SessionOk(sid, x)
  {
    SuppressedCallsOk(x.calls, x.disabled, x.stream, records);
  }
}
