/** The main results about the Pi window reducer, over every run. */
module PiRuns {
  import opened Util
  import opened PiReducer
  import opened PiGrammar

  // ----- admission -----

  lemma StreamKeeps(w: Window, w': Window)
    requires StreamOk(w) && w.final.Keys <= w'.final.Keys
    requires w' == w.(pending := w'.pending, final := w'.final, stateBytes := w'.stateBytes, turnOpen := w'.turnOpen,
                      disabled := w'.disabled, overflowReported := w'.overflowReported)
    ensures StreamOk(w')
  {
  }

  lemma CallsKeep(w: Window, w': Window)
    requires CallsOk(w) && w'.pending == w.pending && w'.final == w.final && w'.stateBytes == w.stateBytes
    ensures CallsOk(w')
  {
  }

  /** One plain record within the limit, with or without the flags of an overflow. */
  lemma EmitOneOk(w: Window, body: Body, disabled: bool, overflowReported: bool)
    requires WindowOk(w) && !w.finished && Plain(body)
    requires |w.emitted| + 1 < MAX_REDUCED_RECORDS_PER_WINDOW
    requires |w.emitted| + 1 < MAX_REDUCED_RECORDS_PER_WINDOW - 1 || body.CoverageDegraded?
    requires w.disabled ==> disabled
    requires disabled || overflowReported ==> w.disabled || w.overflowReported || body.CoverageDegraded?
    ensures WindowOk(Materialize(w.(disabled := disabled, overflowReported := overflowReported), body))
  {
    hide StreamOk, CallsOk, Degraded;
    var flagged := w.(disabled := disabled, overflowReported := overflowReported);
    StreamKeeps(w, flagged);
    EmitPlain(flagged, body);
    CallsKeep(w, Materialize(flagged, body));
    CountIs(flagged);
  }

  lemma CountIs(w: Window)
    requires StreamOk(w)
    ensures w.recordCount == |w.emitted|
  {
  }

  lemma FlagOk(w: Window)
    requires WindowOk(w) && (Degraded(w.emitted) || w.disabled)
    ensures WindowOk(w.(disabled := true))
  {
    hide StreamOk, CallsOk, Degraded;
    StreamKeeps(w, w.(disabled := true));
    CallsKeep(w, w.(disabled := true));
  }

  lemma DegradeOk(w: Window, reason: Reason)
    requires WindowOk(w)
    ensures WindowOk(Degrade(w, reason))
    ensures w.disabled ==> Degrade(w, reason).disabled
  {
    hide WindowOk, Materialize;
    if !w.finished {
      WindowParts(w);
      OneIs(w, CoverageDegraded(reason));
      var flagged := w.(disabled := true, overflowReported := true);
      OneIs(flagged, CoverageDegraded(Overflow));
      if reason.Overflow? && w.overflowReported {
        FlagOk(w);
      } else if |w.emitted| + 1 < MAX_REDUCED_RECORDS_PER_WINDOW {
        EmitOneOk(w, CoverageDegraded(reason), w.disabled, w.overflowReported);
        EmitOneOk(w, CoverageDegraded(Overflow), true, true);
        assert w.(disabled := w.disabled, overflowReported := w.overflowReported) == w;
      } else {
        BothFlagsOk(w);
      }
      MaterializeKeepsFlags(w, CoverageDegraded(reason));
      MaterializeKeepsFlags(flagged, CoverageDegraded(Overflow));
    }
  }

  lemma MaterializeKeepsFlags(w: Window, body: Body)
    ensures Materialize(w, body).disabled == w.disabled
  {
  }

  lemma BothFlagsOk(w: Window)
    requires WindowOk(w) && Degraded(w.emitted)
    ensures WindowOk(w.(disabled := true, overflowReported := true))
  {
    hide StreamOk, CallsOk, Degraded;
    StreamKeeps(w, w.(disabled := true, overflowReported := true));
    CallsKeep(w, w.(disabled := true, overflowReported := true));
  }

  lemma WindowParts(w: Window)
    requires WindowOk(w)
    ensures w.recordCount == |w.emitted| <= MAX_REDUCED_RECORDS_PER_WINDOW
    ensures !w.finished ==> |w.emitted| < MAX_REDUCED_RECORDS_PER_WINDOW
    ensures w.disabled || w.overflowReported ==> Degraded(w.emitted)
    ensures !w.finished && |w.emitted| == MAX_REDUCED_RECORDS_PER_WINDOW - 1 ==> Degraded(w.emitted)
  {
    hide CallsOk, Degraded;
  }

  /** What normal admission does when there is no room: the window is disabled, and has said so. */
  lemma SuppressOk(w: Window, bodies: seq<Body>)
    requires WindowOk(w) && !w.finished && |bodies| > 0 && w.recordCount + |bodies| > Limit(Normal)
    ensures WindowOk(Admit(w, bodies, Normal))
    ensures Admit(w, bodies, Normal).disabled && Degraded(Admit(w, bodies, Normal).emitted)
  {
    hide WindowOk, Materialize, Degraded;
    WindowParts(w);
    if !w.overflowReported && w.recordCount < MAX_REDUCED_RECORDS_PER_WINDOW - 1 {
      EmitOneOk(w, CoverageDegraded(Overflow), true, true);
      MaterializeKeepsFlags(w.(disabled := true, overflowReported := true), CoverageDegraded(Overflow));
    } else {
      FlagOk(w);
    }
    WindowParts(Admit(w, bodies, Normal));
  }

  lemma AdmitPlainOk(w: Window, bodies: seq<Body>)
    requires WindowOk(w) && !w.finished && |bodies| <= 2 && forall b <- bodies :: Plain(b)
    ensures WindowOk(Admit(w, bodies, Normal))
  {
    hide WindowOk, Materialize, Plain;
    WindowParts(w);
    if 0 < |bodies| {
      if w.recordCount + |bodies| > Limit(Normal) {
        SuppressOk(w, bodies);
      } else {
        Plainly(w, bodies[0]);
        if |bodies| == 2 {
          assert bodies == [bodies[0], bodies[1]];
          PairIs(w, bodies[0], bodies[1]);
          MaterializedCounts(w, bodies[0]);
          Plainly(Materialize(w, bodies[0]), bodies[1]);
        } else {
          assert bodies == [bodies[0]];
          OneIs(w, bodies[0]);
        }
      }
    }
  }

  lemma Plainly(w: Window, body: Body)
    requires WindowOk(w) && !w.finished && Plain(body) && |w.emitted| + 1 < MAX_REDUCED_RECORDS_PER_WINDOW - 1
    ensures WindowOk(Materialize(w, body))
  {
    hide WindowOk, Materialize, Plain, Degraded;
    WindowParts(w);
    EmitOneOk(w, body, w.disabled, w.overflowReported);
    assert w.(disabled := w.disabled, overflowReported := w.overflowReported) == w;
  }

  lemma MaterializedCounts(w: Window, body: Body)
    ensures |Materialize(w, body).emitted| == |w.emitted| + 1 && Materialize(w, body).finished == w.finished
  {
  }

  lemma AdmitPairOk(w: Window, c: string, tool: string)
    requires WindowOk(w) && !w.finished && c in w.final
    requires forall r <- w.emitted :: r.body.ToolStarted? ==> r.body.callID != c
    ensures WindowOk(Admit(w, [ToolStarted(c, tool), ToolFinished(c)], Normal))
  {
    var bodies := [ToolStarted(c, tool), ToolFinished(c)];
    if w.recordCount + 2 > Limit(Normal) {
      hide WindowOk, Admit;
      SuppressOk(w, bodies);
    } else {
      hide StreamOk, CallsOk, Degraded, MaterializeAll;
      CountIs(w);
      EmitPair(w, c, tool);
      CountIs(MaterializeAll(w, bodies));
      PairKeeps(w, ToolStarted(c, tool), ToolFinished(c));
      CallsKeep(w, MaterializeAll(w, bodies));
    }
  }

  lemma PairKeeps(w: Window, a: Body, b: Body)
    ensures var w' := MaterializeAll(w, [a, b]);
            w' == w.(emitted := w'.emitted, nextEventID := w'.nextEventID, recordCount := w'.recordCount)
            && |w'.emitted| == |w.emitted| + 2
  {
    hide MaterializeAll;
    PairIs(w, a, b);
  }

  // ----- the tables of calls -----

  /** A window in order always has room for one more call's 192 bytes: the byte reservations cannot fail. */
  lemma ReservationsNeverFail(w: Window)
    requires CallsOk(w)
    ensures 0 <= w.stateBytes <= 192_000
    ensures Reservable(w, CALL_STATE_OVERHEAD_BYTES) && Reservable(w, FINAL_CALL_STATE_BYTES)
    ensures forall c <- w.pending :: Reservable(DropPending(w, c), FINAL_CALL_STATE_BYTES)
    ensures forall c <- w.pending :: DropPending(w, c).stateBytes == w.stateBytes - CALL_STATE_OVERHEAD_BYTES
  {
    assert forall c <- w.pending :: |w.pending| > 0;
  }

  lemma AddPendingOk(w: Window, c: string, start: StartPrint)
    requires WindowOk(w) && c !in w.pending && c !in w.final && |w.pending| + |w.final| < MAX_CALLS_PER_WINDOW
    requires start.callID == c
    ensures WindowOk(w.(pending := w.pending[c := PendingCall(start, CALL_STATE_OVERHEAD_BYTES)],
                        stateBytes := w.stateBytes + CALL_STATE_OVERHEAD_BYTES, turnOpen := true))
  {
    hide StreamOk, Degraded;
    var pending := w.pending[c := PendingCall(start, CALL_STATE_OVERHEAD_BYTES)];
    assert pending.Keys == w.pending.Keys + {c} && |pending| == |w.pending| + 1;
    StreamKeeps(w, w.(pending := pending, stateBytes := w.stateBytes + CALL_STATE_OVERHEAD_BYTES, turnOpen := true));
  }

  lemma MovedKeys<T>(pending: set<T>, final: set<T>, c: T)
    requires c in pending && pending !! final
    ensures |pending - {c}| + |final + {c}| == |pending| + |final| && pending - {c} !! final + {c}
  {
    assert pending == (pending - {c}) + {c};
  }

  lemma FinishCounts(w: Window, c: string, start: Option<StartPrint>, end: Option<EndPrint>)
    requires CallsOk(w) && c in w.pending
    ensures CallsOk(RememberFinal(DropPending(w, c), c, start, end))
  {
    var w' := RememberFinal(DropPending(w, c), c, start, end);
    MovedKeys(w.pending.Keys, w.final.Keys, c);
    assert w'.pending.Keys == w.pending.Keys - {c} && w'.final.Keys == w.final.Keys + {c};
    assert |w'.pending| == |w'.pending.Keys| && |w'.final| == |w'.final.Keys|;
  }

  /** A pending call becomes final: same number of calls, same bytes. */
  lemma FinishPendingOk(w: Window, c: string, start: Option<StartPrint>, end: Option<EndPrint>)
    requires WindowOk(w) && c in w.pending
    ensures WindowOk(RememberFinal(DropPending(w, c), c, start, end))
  {
    hide StreamOk, Degraded, CallsOk;
    FinishCounts(w, c, start, end);
    StreamKeeps(w, RememberFinal(DropPending(w, c), c, start, end));
  }

  lemma NewFinalOk(w: Window, c: string, start: Option<StartPrint>, end: Option<EndPrint>)
    requires WindowOk(w) && c !in w.pending && c !in w.final && |w.pending| + |w.final| < MAX_CALLS_PER_WINDOW
    ensures WindowOk(RememberFinal(w, c, start, end))
  {
    hide StreamOk, Degraded;
    var w' := RememberFinal(w, c, start, end);
    assert w'.final.Keys == w.final.Keys + {c} && |w'.final| == |w.final| + 1;
    StreamKeeps(w, w');
  }

  lemma UpdateFinalOk(w: Window, c: string, f: FinalCall)
    requires WindowOk(w) && c in w.final
    ensures WindowOk(w.(final := w.final[c := f]))
  {
    hide StreamOk, Degraded;
    assert w.final[c := f].Keys == w.final.Keys && |w.final[c := f]| == |w.final|;
    StreamKeeps(w, w.(final := w.final[c := f]));
  }

  lemma ClearedFinals(w: Window)
    requires CallsOk(w)
    ensures ClearPending(w).final.Keys == w.final.Keys + w.pending.Keys
    ensures |ClearPending(w).final| == |w.final| + |w.pending|
  {
    var moved := AsFinal(w.pending);
    assert moved.Keys == w.pending.Keys;
    assert (w.final + moved).Keys == w.final.Keys + moved.Keys;
    assert |w.final.Keys + w.pending.Keys| == |w.final.Keys| + |w.pending.Keys|;
    assert |w.final + moved| == |(w.final + moved).Keys|;
  }

  lemma ClearCounts(w: Window, turnOpen: bool)
    requires CallsOk(w)
    ensures CallsOk(ClearPending(w).(turnOpen := turnOpen))
  {
    hide ClearPending;
    ClearedFinals(w);
    ClearedRest(w);
  }

  lemma ClearedRest(w: Window)
    ensures ClearPending(w) == w.(pending := map[], final := ClearPending(w).final)
  {
  }

  lemma ClearPendingOk(w: Window, turnOpen: bool)
    requires WindowOk(w)
    ensures WindowOk(ClearPending(w).(turnOpen := turnOpen))
  {
    hide StreamOk, Degraded, CallsOk, ClearPending;
    ClearCounts(w, turnOpen);
    ClearedFinals(w);
    ClearedRest(w);
    StreamKeeps(w, ClearPending(w).(turnOpen := turnOpen));
  }

  // ----- the events -----

  lemma FinalOrOverflowOk(w: Window, c: string, start: Option<StartPrint>, end: Option<EndPrint>, reason: Reason)
    requires WindowOk(RememberFinal(w, c, start, end)) && Reservable(w, FINAL_CALL_STATE_BYTES)
    ensures WindowOk(FinalOrOverflow(w, c, start, end, reason))
  {
    hide WindowOk, Degrade;
    DegradeOk(RememberFinal(w, c, start, end), reason);
  }

  lemma ReduceStartOk(w: Window, call: Option<(string, string)>)
    requires WindowOk(w)
    ensures WindowOk(ReduceStart(w, call))
  {
    hide StreamOk, QuotaOk, Degrade, FinalOrOverflow, DropPending, RememberFinal, Reservable;
    ReservationsNeverFail(w);
    DegradeOk(w, MissingField);
    DegradeOk(w, InvalidTransition);
    DegradeOk(w, Overflow);
    if call.Some? {
      var (c, tool) := call.value;
      if c in w.pending {
        FinishPendingOk(w, c, None, None);
        FinalOrOverflowOk(DropPending(w, c), c, None, None, InvalidTransition);
      } else if c !in w.final && |w.pending| + |w.final| < MAX_CALLS_PER_WINDOW {
        AddPendingOk(w, c, StartPrint(c, tool));
      }
    }
  }

  lemma ReduceEndOk(w: Window, ended: Option<(string, string, bool)>)
    requires WindowOk(w) && !w.finished
    ensures WindowOk(ReduceEnd(w, ended))
  {
    hide StreamOk, QuotaOk, Degrade, FinalOrOverflow, DropPending, RememberFinal, Reservable, Admit;
    ReservationsNeverFail(w);
    DegradeOk(w, MissingField);
    DegradeOk(w, InvalidTransition);
    DegradeOk(w, Overflow);
    if ended.Some? {
      var (c, tool, isError) := ended.value;
      var start, end := StartPrint(c, tool), EndPrint(c, tool, isError);
      if c in w.final {
        var noted := w.(final := w.final[c := w.final[c].(end := Some(end))]);
        UpdateFinalOk(w, c, w.final[c].(end := Some(end)));
        DegradeOk(noted, InvalidTransition);
      } else if c in w.pending {
        FinishPendingOk(w, c, None, None);
        FinalOrOverflowOk(DropPending(w, c), c, None, None, InvalidTransition);
        FinishPendingOk(w, c, Some(start), Some(end));
        var closed := RememberFinal(DropPending(w, c), c, Some(start), Some(end));
        DegradeOk(closed, AmbiguousError);
        ClosedCallIsNew(w, c, Some(start), Some(end));
        AdmitPairOk(closed, c, tool);
      } else if |w.pending| + |w.final| < MAX_CALLS_PER_WINDOW {
        NewFinalOk(w, c, None, Some(end));
        FinalOrOverflowOk(w, c, None, Some(end), InvalidTransition);
      }
    }
  }

  lemma ClosedCallIsNew(w: Window, c: string, start: Option<StartPrint>, end: Option<EndPrint>)
    requires WindowOk(w) && c in w.pending
    ensures var closed := RememberFinal(DropPending(w, c), c, start, end);
            && c in closed.final && closed.finished == w.finished && closed.emitted == w.emitted
            && forall r <- closed.emitted :: r.body.ToolStarted? ==> r.body.callID != c
  {
  }

  lemma UnmatchedPlain(w: Window, more: seq<Body>)
    requires |more| <= 1 && forall b <- more :: Plain(b)
    ensures |Unmatched(w) + more| <= 2 && forall b <- Unmatched(w) + more :: Plain(b)
  {
  }

  lemma ReduceShutdownOk(w: Window, why: string)
    requires WindowOk(w) && !w.finished
    ensures WindowOk(ReduceShutdown(w, why))
    ensures EndsFinished(ReduceShutdown(w, why).emitted)
    ensures ReduceShutdown(w, why).emitted[|ReduceShutdown(w, why).emitted| - 1].body == SessionFinished(why)
  {
    hide WindowOk, Materialize, Degraded, ClearPending;
    var cleared := ClearPending(w).(turnOpen := false);
    ClearPendingOk(w, false);
    ClearKeeps(w, false);
    WindowParts(w);
    WindowParts(cleared);
    var notice := CoverageDegraded(UnmatchedStart);
    OneIs(cleared, SessionFinished(why));
    PairIs(cleared, notice, SessionFinished(why));
    FinishWith(cleared, why);
    if |w.emitted| + 2 <= MAX_REDUCED_RECORDS_PER_WINDOW {
      EmitOneOk(cleared, notice, cleared.disabled, cleared.overflowReported);
      assert cleared.(disabled := cleared.disabled, overflowReported := cleared.overflowReported) == cleared;
      MaterializedCounts(cleared, notice);
      FinishWith(Materialize(cleared, notice), why);
    }
    assert Unmatched(w) + [SessionFinished(why)] == if |w.pending| > 0 then [notice, SessionFinished(why)] else [SessionFinished(why)];
  }

  lemma ClearKeeps(w: Window, turnOpen: bool)
    ensures var w' := ClearPending(w).(turnOpen := turnOpen);
            w'.emitted == w.emitted && w'.recordCount == w.recordCount && w'.finished == w.finished && w'.disabled == w.disabled
  {
  }

  lemma FinishWith(w: Window, why: string)
    requires WindowOk(w) && !w.finished
    ensures WindowOk(Materialize(w, SessionFinished(why)).(finished := true))
    ensures var t := Materialize(w, SessionFinished(why)).emitted; |t| > 0 && t[|t| - 1].body == SessionFinished(why)
  {
    hide StreamOk, CallsOk, Degraded;
    EmitFinish(w, why);
    CountIs(w);
    CallsKeep(w, Materialize(w, SessionFinished(why)).(finished := true));
  }

  lemma StepOk(w: Window, step: Step)
    requires WindowOk(w)
    ensures WindowOk(Do(w, step))
  {
    hide WindowOk, Degrade, ReduceStart, ReduceEnd, Admit, ReduceShutdown, ClearPending, Plain;
    if step.DoDegrade? {
      DegradeOk(w, step.reason);
    } else if !w.finished {
      DegradeOk(w, MissingField);
      DegradeOk(w, InvalidTransition);
      ClearKeeps(w, w.turnOpen);
      ClearKeeps(w, false);
      ClearPendingOk(w, w.turnOpen);
      ClearPendingOk(w, false);
      match step.event
      case Ignored =>
      case Unreadable =>
      case BeforeAgentStart => TurnOk(w);
      case ToolStart(call) => ReduceStartOk(w, call);
      case ToolEnd(ended) => ReduceEndOk(w, ended);
      case AgentSettled =>
        BoundariesPlain("", false, false, None, None);
        UnmatchedPlain(w, if w.turnOpen then [TurnFinished] else []);
        AdmitPlainOk(ClearPending(w).(turnOpen := false), Unmatched(w) + if w.turnOpen then [TurnFinished] else []);
      case SessionCompact(c) => if c.Some? { BoundaryOk(w, Compaction(c.value.0, c.value.1, c.value.2)); }
      case SessionTree(m) => if m.Some? { BoundaryOk(w, TreeMove(m.value.0, m.value.1)); }
      case SessionShutdown(why) => if why.Some? { ReduceShutdownOk(w, why.value); }
    }
  }

  lemma BoundariesPlain(cause: string, a: bool, b: bool, o: Option<string>, n: Option<string>)
    ensures Plain(TurnFinished) && Plain(Compaction(cause, a, b)) && Plain(TreeMove(o, n))
  {
  }

  lemma BoundaryOk(w: Window, boundary: Body)
    requires WindowOk(w) && !w.finished && (boundary.Compaction? || boundary.TreeMove?)
    ensures WindowOk(ReduceBoundary(w, boundary))
  {
    hide WindowOk, Admit, ClearPending;
    ClearPendingOk(w, w.turnOpen);
    ClearKeeps(w, w.turnOpen);
    ClearSame(w);
    UnmatchedPlain(w, [boundary]);
    AdmitPlainOk(ClearPending(w), Unmatched(w) + [boundary]);
  }

  lemma ClearSame(w: Window)
    ensures ClearPending(w).(turnOpen := w.turnOpen) == ClearPending(w)
  {
  }

  lemma TurnOk(w: Window)
    requires WindowOk(w)
    ensures WindowOk(w.(turnOpen := true))
  {
    hide StreamOk, Degraded;
    StreamKeeps(w, w.(turnOpen := true));
  }

  // ----- whole runs -----

  lemma InitialOk(coordinates: Coordinates)
    ensures WindowOk(Initial(coordinates))
  {
  }

  lemma {:induction false} AfterOk(w: Window, steps: seq<Step>)
    requires WindowOk(w)
    ensures WindowOk(After(w, steps))
    decreases |steps|
  {
    hide WindowOk, Do;
    if |steps| > 0 {
      StepOk(w, steps[0]);
      AfterOk(Do(w, steps[0]), steps[1..]);
    }
  }

  /**
   * The stream of a window, after any run: records numbered 1 to n under the
   * window's coordinates, every `tool_started` followed at once by its own
   * `tool_finished`, every call at most once, nothing after `session_finished`,
   * at most 997 records, 192 bytes per call and at most 192000 in all.
   */
  lemma StreamGrammar(coordinates: Coordinates, steps: seq<Step>)
    ensures var w := After(Initial(coordinates), steps);
            && Numbered(w) && w.coordinates == coordinates
            && Paired(w.emitted) && EachCallOnce(w.emitted) && FinishedLast(w.emitted)
            && (EndsFinished(w.emitted) <==> w.finished)
            && |w.emitted| <= MAX_REDUCED_RECORDS_PER_WINDOW
            && w.stateBytes == CALL_STATE_OVERHEAD_BYTES * (|w.pending| + |w.final|) <= 192_000
            && w.pending.Keys !! w.final.Keys
  {
    hide Numbered, Paired, EachCallOnce, FinishedLast, Degraded;
    InitialOk(coordinates);
    AfterOk(Initial(coordinates), steps);
    CoordinatesStay(Initial(coordinates), steps);
  }

  lemma AdmitCoordinates(w: Window, bodies: seq<Body>, mode: Mode)
    ensures Admit(w, bodies, mode).coordinates == w.coordinates && Admit(w, bodies, mode).finished == w.finished
    ensures |bodies| <= 2 ==> w.emitted <= Admit(w, bodies, mode).emitted
  {
    hide Materialize;
    Materializing(w, bodies);
    OneMore(w.(disabled := true, overflowReported := true), CoverageDegraded(Overflow));
  }

  lemma OneMore(w: Window, body: Body)
    ensures Materialize(w, body).coordinates == w.coordinates && w.emitted <= Materialize(w, body).emitted
    ensures Materialize(w, body).finished == w.finished
  {
  }

  lemma {:induction false} Materializing(w: Window, bodies: seq<Body>)
    ensures var w' := MaterializeAll(w, bodies);
            w'.coordinates == w.coordinates && w.emitted <= w'.emitted && w'.finished == w.finished
    decreases |bodies|
  {
    hide Materialize;
    if |bodies| > 0 {
      OneMore(w, bodies[0]);
      Materializing(Materialize(w, bodies[0]), bodies[1..]);
    }
  }

  /** Same window, a longer stream, still open or still finished. */
  ghost predicate Extends(w: Window, w': Window) {
    w'.coordinates == w.coordinates && w.emitted <= w'.emitted && w'.finished == w.finished
  }

  lemma AdmitExtends(w: Window, x: Window, bodies: seq<Body>, mode: Mode)
    requires Extends(w, x) && |bodies| <= 2
    ensures Extends(w, Admit(x, bodies, mode))
  {
    hide Admit;
    AdmitCoordinates(x, bodies, mode);
  }

  lemma DegradeExtends(w: Window, x: Window, reason: Reason)
    requires Extends(w, x)
    ensures Extends(w, Degrade(x, reason))
  {
    hide Admit, Extends;
    AdmitExtends(w, x, [CoverageDegraded(reason)], Degradation);
    FlagsExtend(w, x);
    AdmitExtends(w, x.(disabled := true, overflowReported := true), [CoverageDegraded(Overflow)], Degradation);
  }

  lemma FlagsExtend(w: Window, x: Window)
    requires Extends(w, x)
    ensures Extends(w, x.(disabled := true)) && Extends(w, x.(disabled := true, overflowReported := true))
  {
  }

  lemma TablesExtend(w: Window, x: Window, y: Window)
    requires Extends(w, x) && y == x.(pending := y.pending, final := y.final, stateBytes := y.stateBytes, turnOpen := y.turnOpen)
    ensures Extends(w, y)
  {
  }

  lemma FinalExtends(w: Window, x: Window, c: string, start: Option<StartPrint>, end: Option<EndPrint>, reason: Reason)
    requires Extends(w, x)
    ensures Extends(w, FinalOrOverflow(x, c, start, end, reason))
  {
    hide Degrade, Extends;
    DegradeExtends(w, x, Overflow);
    TablesExtend(w, x, RememberFinal(x, c, start, end));
    DegradeExtends(w, RememberFinal(x, c, start, end), reason);
  }

  lemma ReduceStartExtends(w: Window, call: Option<(string, string)>)
    ensures Extends(w, ReduceStart(w, call))
  {
    hide Degrade, FinalOrOverflow, Reservable;
    DegradeExtends(w, w, MissingField);
    DegradeExtends(w, w, InvalidTransition);
    DegradeExtends(w, w, Overflow);
    if call.Some? && call.value.0 in w.pending {
      FinalExtends(w, DropPending(w, call.value.0), call.value.0, None, None, InvalidTransition);
    }
  }

  lemma ReduceEndExtends(w: Window, ended: Option<(string, string, bool)>)
    ensures Extends(w, ReduceEnd(w, ended))
  {
    hide Degrade, FinalOrOverflow, Reservable, Admit;
    DegradeExtends(w, w, MissingField);
    DegradeExtends(w, w, InvalidTransition);
    DegradeExtends(w, w, Overflow);
    if ended.Some? {
      var (c, tool, isError) := ended.value;
      var start, end := StartPrint(c, tool), EndPrint(c, tool, isError);
      FinalExtends(w, w, c, None, Some(end), InvalidTransition);
      if c in w.final {
        DegradeExtends(w, w.(final := w.final[c := w.final[c].(end := Some(end))]), InvalidTransition);
      } else if c in w.pending {
        EndOfPendingExtends(w, c, tool, isError);
      }
    }
  }

  lemma EndOfPendingExtends(w: Window, c: string, tool: string, isError: bool)
    requires c in w.pending && c !in w.final
    ensures Extends(w, ReduceEnd(w, Some((c, tool, isError))))
  {
    hide Degrade, FinalOrOverflow, Reservable, Admit;
    var dropped := DropPending(w, c);
    var closed := RememberFinal(dropped, c, Some(StartPrint(c, tool)), Some(EndPrint(c, tool, isError)));
    FinalExtends(w, dropped, c, None, None, InvalidTransition);
    DegradeExtends(w, dropped, Overflow);
    DegradeExtends(w, closed, AmbiguousError);
    AdmitExtends(w, closed, [ToolStarted(c, tool), ToolFinished(c)], Normal);
  }

  predicate Shuts(step: Step) {
    step.DoReduce? && step.event.SessionShutdown? && step.event.reason.Some?
  }

  /** Every step only adds to the stream; only an accepted shutdown finishes the window, and then nothing moves. */
  lemma StepExtends(w: Window, step: Step)
    ensures w.finished ==> Do(w, step) == w
    ensures !Shuts(step) ==> Extends(w, Do(w, step))
    ensures !w.finished && Shuts(step) ==> Extends(w, Do(w, step).(finished := false)) && Do(w, step).finished
  {
    hide Extends, Admit, Degrade, ReduceStart, ReduceEnd;
    SelfExtends(w);
    if step.DoDegrade? {
      DegradeExtends(w, w, step.reason);
      hide Do;
      FinishedStays(w, step.reason);
    } else if !w.finished {
      DegradeExtends(w, w, MissingField);
      DegradeExtends(w, w, InvalidTransition);
      TablesExtend(w, w, w.(turnOpen := true));
      EventExtends(w, step.event);
    }
  }

  lemma SelfExtends(w: Window)
    ensures Extends(w, w)
  {
  }

  lemma FinishedStays(w: Window, reason: Reason)
    ensures w.finished ==> Do(w, DoDegrade(reason)) == w
    ensures Do(w, DoDegrade(reason)) == Degrade(w, reason)
  {
  }

  lemma EventExtends(w: Window, e: Event)
    requires !w.finished
    ensures !Shuts(DoReduce(e)) ==> Extends(w, Reduce(w, e))
    ensures Shuts(DoReduce(e)) ==> Extends(w, Reduce(w, e).(finished := false)) && Reduce(w, e).finished
  {
    hide Extends, Admit, Degrade, ReduceStart, ReduceEnd, ClearPending;
    SelfExtends(w);
    DegradeExtends(w, w, MissingField);
    DegradeExtends(w, w, InvalidTransition);
    TablesExtend(w, w, w.(turnOpen := true));
    ClearedRest(w);
    TablesExtend(w, w, ClearPending(w));
    TablesExtend(w, w, ClearPending(w).(turnOpen := false));
    match e
    case ToolStart(call) => ReduceStartExtends(w, call);
    case ToolEnd(ended) => ReduceEndExtends(w, ended);
    case AgentSettled =>
      AdmitExtends(w, ClearPending(w).(turnOpen := false), Unmatched(w) + if w.turnOpen then [TurnFinished] else [], Normal);
    case SessionCompact(c) =>
      if c.Some? { AdmitExtends(w, ClearPending(w), Unmatched(w) + [Compaction(c.value.0, c.value.1, c.value.2)], Normal); }
    case SessionTree(m) =>
      if m.Some? { AdmitExtends(w, ClearPending(w), Unmatched(w) + [TreeMove(m.value.0, m.value.1)], Normal); }
    case SessionShutdown(why) => if why.Some? { ShutdownExtends(w, why.value); }
    case _ =>
  }

  lemma ShutdownExtends(w: Window, why: string)
    requires !w.finished
    ensures Extends(w, ReduceShutdown(w, why).(finished := false))
  {
    hide Admit, ClearPending;
    ClearedRest(w);
    var cleared := ClearPending(w).(turnOpen := false);
    AdmitExtends(w, cleared, Unmatched(w) + [SessionFinished(why)], Closing);
    AdmitExtends(w, cleared, [SessionFinished(why)], Closing);
  }

  lemma {:induction false} CoordinatesStay(w: Window, steps: seq<Step>)
    ensures After(w, steps).coordinates == w.coordinates && w.emitted <= After(w, steps).emitted
    decreases |steps|
  {
    hide Do;
    if |steps| > 0 {
      StepExtends(w, steps[0]);
      assert w.emitted <= Do(w, steps[0]).emitted;
      CoordinatesStay(Do(w, steps[0]), steps[1..]);
    }
  }

  /** The reserved slot works: an accepted shutdown ends the stream with its `session_finished`, whatever came before. */
  lemma ShutdownFinishes(w: Window, why: string)
    requires WindowOk(w) && !w.finished
    ensures var w' := Reduce(w, SessionShutdown(Some(why)));
            && w'.finished && |w'.emitted| > |w.emitted|
            && w'.emitted[|w'.emitted| - 1].body == SessionFinished(why)
  {
    hide WindowOk, ReduceShutdown;
    ReduceShutdownOk(w, why);
    ShutdownAdds(w, why);
  }

  lemma ShutdownAdds(w: Window, why: string)
    requires WindowOk(w) && !w.finished
    ensures |ReduceShutdown(w, why).emitted| > |w.emitted| && ReduceShutdown(w, why).finished
  {
    hide WindowOk, Materialize, ClearPending, Degraded;
    WindowParts(w);
    ClearKeeps(w, false);
    var cleared := ClearPending(w).(turnOpen := false);
    OneIs(cleared, SessionFinished(why));
    PairIs(cleared, CoverageDegraded(UnmatchedStart), SessionFinished(why));
    MaterializedCounts(cleared, SessionFinished(why));
    MaterializedCounts(cleared, CoverageDegraded(UnmatchedStart));
    MaterializedCounts(Materialize(cleared, CoverageDegraded(UnmatchedStart)), SessionFinished(why));
    assert Unmatched(w) + [SessionFinished(why)]
        == if |w.pending| > 0 then [CoverageDegraded(UnmatchedStart), SessionFinished(why)] else [SessionFinished(why)];
  }

  // ----- suppression is never silent -----

  predicate Bodies(s: seq<Record>, from: nat, bodies: seq<Body>) {
    |s| == from + |bodies| && forall i | 0 <= i < |bodies| :: s[from + i].body == bodies[i]
  }

  lemma {:induction false} MaterializedBodies(w: Window, bodies: seq<Body>)
    ensures Bodies(MaterializeAll(w, bodies).emitted, |w.emitted|, bodies)
    decreases |bodies|
  {
    if |bodies| > 0 {
      hide MaterializeAll;
      var w1 := Materialize(w, bodies[0]);
      MaterializeStep(w, bodies);
      MaterializedBodies(w1, bodies[1..]);
      Materializing(w1, bodies[1..]);
      var s := MaterializeAll(w, bodies).emitted;
      assert s[|w.emitted|] == w1.emitted[|w.emitted|];
      forall i | 1 <= i < |bodies|
        ensures s[|w.emitted| + i].body == bodies[i]
      {
        assert bodies[1..][i - 1] == bodies[i];
      }
    }
  }

  lemma MaterializeStep(w: Window, bodies: seq<Body>)
    requires |bodies| > 0
    ensures MaterializeAll(w, bodies) == MaterializeAll(Materialize(w, bodies[0]), bodies[1..])
  {
  }

  /** Everything offered is emitted, or the stream holds a `coverage_degraded`. */
  lemma AdmittedOrDegraded(w: Window, bodies: seq<Body>, mode: Mode)
    requires WindowOk(w) && !w.finished && !mode.Closing? && (mode.Degradation? ==> |bodies| == 1)
    ensures var w' := Admit(w, bodies, mode);
            Bodies(w'.emitted, |w.emitted|, bodies) || Degraded(w'.emitted)
  {
    hide WindowOk, Degraded, Materialize, MaterializeAll;
    WindowParts(w);
    MaterializedBodies(w, bodies);
    if mode.Normal? && |bodies| > 0 && w.recordCount + |bodies| > Limit(Normal) {
      SuppressOk(w, bodies);
    }
  }

  /** A degradation is emitted, or the stream holds a `coverage_degraded` already. */
  lemma DegradeOrDegraded(w: Window, reason: Reason)
    requires WindowOk(w) && !w.finished
    ensures Degraded(Degrade(w, reason).emitted)
  {
    hide WindowOk, Degraded, Materialize;
    WindowParts(w);
    OneIs(w, CoverageDegraded(reason));
    OneIs(w.(disabled := true, overflowReported := true), CoverageDegraded(Overflow));
    NoticeIsThere(w, reason);
    NoticeIsThere(w.(disabled := true, overflowReported := true), Overflow);
  }

  lemma NoticeIsThere(w: Window, reason: Reason)
    ensures Degraded(Materialize(w, CoverageDegraded(reason)).emitted)
  {
    assert Materialize(w, CoverageDegraded(reason)).emitted[|w.emitted|].body.CoverageDegraded?;
  }

  /** The notice of unmatched starts that a full window drops at shutdown has a predecessor in the stream. */
  lemma DroppedNoticeIsDegraded(w: Window)
    requires WindowOk(w) && !w.finished && w.recordCount + 2 > MAX_REDUCED_RECORDS_PER_WINDOW
    ensures Degraded(w.emitted)
  {
    hide WindowOk, Degraded;
    WindowParts(w);
  }

  // ----- what a reported call means -----

  /** A call is reported exactly when a start of the same call and tool is pending and it ends without error. */
  predicate ReportsCall(w: Window, ended: Option<(string, string, bool)>) {
    && !w.finished && !w.disabled && ended.Some?
    && var (c, tool, isError) := ended.value;
    && !isError && c !in w.final && c in w.pending && w.pending[c].start == StartPrint(c, tool)
    && w.recordCount + 2 <= Limit(Normal)
  }

  ghost predicate AddsNoCall(w: Window, w': Window) {
    forall i | |w.emitted| <= i < |w'.emitted| :: !w'.emitted[i].body.ToolStarted?
  }

  lemma DegradeAddsNoCall(w: Window, x: Window, reason: Reason)
    requires x.emitted == w.emitted
    ensures AddsNoCall(w, Degrade(x, reason))
  {
    OneIs(x, CoverageDegraded(reason));
    OneIs(x.(disabled := true, overflowReported := true), CoverageDegraded(Overflow));
    hide MaterializeAll;
  }

  lemma FinalAddsNoCall(w: Window, x: Window, c: string, start: Option<StartPrint>, end: Option<EndPrint>, reason: Reason)
    requires x.emitted == w.emitted
    ensures AddsNoCall(w, FinalOrOverflow(x, c, start, end, reason))
  {
    hide Degrade, AddsNoCall;
    DegradeAddsNoCall(w, x, Overflow);
    DegradeAddsNoCall(w, RememberFinal(x, c, start, end), reason);
  }

  lemma SuppressedAddsNoCall(w: Window, x: Window, bodies: seq<Body>)
    requires x.emitted == w.emitted && |bodies| > 0 && x.recordCount + |bodies| > Limit(Normal)
    ensures AddsNoCall(w, Admit(x, bodies, Normal))
  {
  }

  /** The pair of records of a call is emitted exactly then, and nothing else an end event does starts a call. */
  lemma ReportedIffMatched(w: Window, ended: Option<(string, string, bool)>)
    requires WindowOk(w)
    ensures !ReportsCall(w, ended) ==> AddsNoCall(w, Reduce(w, ToolEnd(ended)))
    ensures ReportsCall(w, ended) ==>
      var (c, tool, _) := ended.value;
      Bodies(Reduce(w, ToolEnd(ended)).emitted, |w.emitted|, [ToolStarted(c, tool), ToolFinished(c)])
  {
    hide WindowOk, Degrade, FinalOrOverflow, Admit, Reservable, AddsNoCall, Bodies;
    NothingAdded(w);
    DegradeAddsNoCall(w, w, MissingField);
    if !w.finished && !w.disabled && ended.Some? {
      var (c, tool, isError) := ended.value;
      var end := EndPrint(c, tool, isError);
      if c in w.final {
        DegradeAddsNoCall(w, w, InvalidTransition);
        DegradeAddsNoCall(w, w.(final := w.final[c := w.final[c].(end := Some(end))]), InvalidTransition);
      } else if c in w.pending {
        PendingEnds(w, c, tool, isError);
      } else {
        DegradeAddsNoCall(w, w, Overflow);
        FinalAddsNoCall(w, w, c, None, Some(end), InvalidTransition);
      }
    }
  }

  lemma PendingEnds(w: Window, c: string, tool: string, isError: bool)
    requires WindowOk(w) && !w.finished && !w.disabled && c in w.pending && c !in w.final
    ensures var ended := Some((c, tool, isError));
            var w' := Reduce(w, ToolEnd(ended));
            if ReportsCall(w, ended) then Bodies(w'.emitted, |w.emitted|, [ToolStarted(c, tool), ToolFinished(c)])
            else AddsNoCall(w, w')
  {
    hide WindowOk, Degrade, FinalOrOverflow, Admit, Reservable, AddsNoCall, Bodies;
    CallsOf(w);
    ReservationsNeverFail(w);
    var dropped := DropPending(w, c);
    var closed := RememberFinal(dropped, c, Some(StartPrint(c, tool)), Some(EndPrint(c, tool, isError)));
    FinalAddsNoCall(w, dropped, c, None, None, InvalidTransition);
    DegradeAddsNoCall(w, closed, AmbiguousError);
    ClosedAdmits(w, closed, c, tool);
  }

  lemma NothingAdded(w: Window)
    ensures AddsNoCall(w, w)
  {
  }

  lemma ClosedAdmits(w: Window, closed: Window, c: string, tool: string)
    requires closed.emitted == w.emitted && closed.recordCount == w.recordCount
    ensures var bodies := [ToolStarted(c, tool), ToolFinished(c)];
            var w' := Admit(closed, bodies, Normal);
            if w.recordCount + 2 <= Limit(Normal) then Bodies(w'.emitted, |w.emitted|, bodies) else AddsNoCall(w, w')
  {
    hide MaterializeAll, Bodies, AddsNoCall;
    var bodies := [ToolStarted(c, tool), ToolFinished(c)];
    MaterializedBodies(closed, bodies);
    if w.recordCount + 2 > Limit(Normal) {
      SuppressedAddsNoCall(w, closed, bodies);
    }
  }

  lemma CallsOf(w: Window)
    requires WindowOk(w)
    ensures CallsOk(w)
  {
  }
}
