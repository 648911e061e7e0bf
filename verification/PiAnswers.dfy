/** What a Pi window answers to each event. */
module PiAnswers {
  // A table of answers, read off the events and the two tables of calls alone;
  // the reducer gives exactly these, and moves calls exactly so.

  import opened Util
  import opened PiReducer
  import opened PiGrammar
  import opened PiRuns

  // ----- the table -----

  function OverflowNotice(w: Window): seq<Body> {
    if w.overflowReported then [] else [CoverageDegraded(Overflow)]
  }

  function StartAnswer(w: Window, c: string, tool: string): seq<Body> {
    if c in w.final then
      if w.final[c].start == Some(StartPrint(c, tool)) then [] else [CoverageDegraded(InvalidTransition)]
    else if c in w.pending then
      if w.pending[c].start == StartPrint(c, tool) then [] else [CoverageDegraded(InvalidTransition)]
    else if |w.pending| + |w.final| >= 1_000 then OverflowNotice(w)
    else []
  }

  function EndAnswer(w: Window, c: string, tool: string, isError: bool): seq<Body> {
    if c in w.final then
      if w.final[c].end == Some(EndPrint(c, tool, isError)) then [] else [CoverageDegraded(InvalidTransition)]
    else if c in w.pending then
      if w.pending[c].start != StartPrint(c, tool) then [CoverageDegraded(InvalidTransition)]
      else if isError then [CoverageDegraded(AmbiguousError)]
      else [ToolStarted(c, tool), ToolFinished(c)]
    else if |w.pending| + |w.final| >= 1_000 then OverflowNotice(w)
    else [CoverageDegraded(InvalidTransition)]
  }

  /** The notice that starts are left without an end. */
  function Notice(w: Window): seq<Body> {
    if w.pending == map[] then [] else [CoverageDegraded(UnmatchedStart)]
  }

  function Answer(w: Window, e: Event): seq<Body> {
    match e
    case Ignored => []
    case Unreadable => [CoverageDegraded(MissingField)]
    case BeforeAgentStart => if !w.disabled && w.turnOpen then [CoverageDegraded(InvalidTransition)] else []
    case ToolStart(Some(call)) => if w.disabled then [] else StartAnswer(w, call.0, call.1)
    case ToolEnd(Some(ended)) => if w.disabled then [] else EndAnswer(w, ended.0, ended.1, ended.2)
    case ToolStart(None) => if w.disabled then [] else [CoverageDegraded(MissingField)]
    case ToolEnd(None) => if w.disabled then [] else [CoverageDegraded(MissingField)]
    case AgentSettled => Notice(w) + if w.turnOpen then [TurnFinished] else []
    case SessionCompact(Some(c)) => Notice(w) + [Compaction(c.0, c.1, c.2)]
    case SessionTree(Some(m)) => Notice(w) + [TreeMove(m.0, m.1)]
    case SessionShutdown(Some(why)) => Notice(w) + [SessionFinished(why)]
    case _ => [CoverageDegraded(MissingField)]
  }

  /** The event ends something: what it has to say may not take the last two places of the window. */
  predicate Ordinary(w: Window, e: Event) {
    || e.AgentSettled? || (e.SessionCompact? && e.compaction.Some?) || (e.SessionTree? && e.move.Some?)
    || (e.ToolEnd? && |Answer(w, e)| == 2)
  }

  /** What is said of the answer: places 996 and 997 are kept for a degradation and for the end of the session. */
  function Said(w: Window, e: Event): seq<Body> {
    var answer := Answer(w, e);
    if Ordinary(w, e) && answer != [] then
      if |w.emitted| + |answer| <= 995 then answer
      else if !w.overflowReported && |w.emitted| < 996 then [CoverageDegraded(Overflow)]
      else []
    else if e.SessionShutdown? && e.reason.Some? then
      if |w.emitted| + |answer| <= 997 then answer else [SessionFinished(e.reason.value)]
    else if |w.emitted| + |answer| <= 996 then answer
    else []
  }

  /** Which calls are pending after the event, and which are final. */
  function PendingAfter(w: Window, e: Event): set<string> {
    match e
    case ToolStart(Some(call)) =>
      if w.disabled || call.0 in w.final then w.pending.Keys
      else if call.0 in w.pending then
        if w.pending[call.0].start == StartPrint(call.0, call.1) then w.pending.Keys else w.pending.Keys - {call.0}
      else if |w.pending| + |w.final| >= 1_000 then w.pending.Keys
      else w.pending.Keys + {call.0}
    case ToolEnd(Some(ended)) =>
      if !w.disabled && ended.0 !in w.final && ended.0 in w.pending then w.pending.Keys - {ended.0} else w.pending.Keys
    case AgentSettled => {}
    case SessionCompact(Some(_)) => {}
    case SessionTree(Some(_)) => {}
    case SessionShutdown(Some(_)) => {}
    case _ => w.pending.Keys
  }

  function FinalAfter(w: Window, e: Event): set<string> {
    match e
    case ToolStart(Some(call)) =>
      if !w.disabled && call.0 !in w.final && call.0 in w.pending && w.pending[call.0].start != StartPrint(call.0, call.1)
      then w.final.Keys + {call.0} else w.final.Keys
    case ToolEnd(Some(ended)) =>
      if !w.disabled && ended.0 !in w.final && (ended.0 in w.pending || |w.pending| + |w.final| < 1_000)
      then w.final.Keys + {ended.0} else w.final.Keys
    case AgentSettled => w.final.Keys + w.pending.Keys
    case SessionCompact(Some(_)) => w.final.Keys + w.pending.Keys
    case SessionTree(Some(_)) => w.final.Keys + w.pending.Keys
    case SessionShutdown(Some(_)) => w.final.Keys + w.pending.Keys
    case _ => w.final.Keys
  }

  /** A call neither pending nor final, and 1000 that are. */
  predicate TableFull(w: Window, e: Event) {
    && |w.pending| + |w.final| >= 1_000
    && match e
       case ToolStart(Some(call)) => call.0 !in w.pending && call.0 !in w.final
       case ToolEnd(Some(ended)) => ended.0 !in w.pending && ended.0 !in w.final
       case _ => false
  }

  /** Whether the turn is open after the event. */
  predicate TurnAfter(w: Window, e: Event) {
    match e
    case BeforeAgentStart => w.turnOpen || !w.disabled
    case ToolStart(Some(call)) =>
      w.turnOpen || (!w.disabled && call.0 !in w.final && call.0 !in w.pending && |w.pending| + |w.final| < 1_000)
    case AgentSettled => false
    case SessionShutdown(Some(_)) => false
    case _ => w.turnOpen
  }

  /** Whether the window ignores starts and ends from then on: after a full table, and after an answer that had no place. */
  predicate DisabledAfter(w: Window, e: Event) {
    w.disabled || TableFull(w, e) || (Ordinary(w, e) && Answer(w, e) != [] && |w.emitted| + |Answer(w, e)| > 995)
  }

  /** Whether the one overflow notice of the window has been spent. */
  predicate ReportedAfter(w: Window, e: Event) {
    w.overflowReported || (!w.disabled && TableFull(w, e))
    || (Ordinary(w, e) && Answer(w, e) != [] && 995 < |w.emitted| + |Answer(w, e)| && |w.emitted| < 996)
  }

  // ----- the reducer gives these answers -----

  /** The stream grows by exactly these bodies, numbered on. */
  predicate Adds(w: Window, w': Window, bodies: seq<Body>) {
    && |w'.emitted| == |w.emitted| + |bodies| && w.emitted <= w'.emitted
    && forall i | 0 <= i < |bodies| :: w'.emitted[|w.emitted| + i] == Record(w.coordinates, |w.emitted| + 1 + i, bodies[i])
  }

  lemma AddsNothing(w: Window, w': Window)
    requires w'.emitted == w.emitted
    ensures Adds(w, w', [])
  {
  }

  lemma AddsOne(w: Window, x: Window, body: Body)
    requires WindowOk(w) && x.emitted == w.emitted && x.nextEventID == w.nextEventID && x.coordinates == w.coordinates
    ensures Adds(w, Materialize(x, body), [body])
  {
  }

  lemma AddsTwo(w: Window, x: Window, a: Body, b: Body)
    requires WindowOk(w) && x.emitted == w.emitted && x.nextEventID == w.nextEventID && x.coordinates == w.coordinates
    ensures Adds(w, Materialize(Materialize(x, a), b), [a, b])
  {
  }

  lemma Counts(w: Window)
    requires WindowOk(w)
    ensures w.recordCount == |w.emitted| && w.nextEventID == |w.emitted| + 1
    ensures w.pending.Keys !! w.final.Keys
    ensures Reservable(w, CALL_STATE_OVERHEAD_BYTES) && Reservable(w, FINAL_CALL_STATE_BYTES)
    ensures forall c <- w.pending :: Reservable(DropPending(w, c), FINAL_CALL_STATE_BYTES)
    ensures !w.finished ==> |w.emitted| < 997
  {
    hide Paired, EachCallOnce, FinishedLast, EndsFinished, Degraded;
    ReservationsNeverFail(w);
  }

  /** Tables may have moved; the stream and its numbering have not. */
  predicate SameStream(w: Window, x: Window) {
    x.emitted == w.emitted && x.nextEventID == w.nextEventID && x.coordinates == w.coordinates
    && x.recordCount == w.recordCount && x.finished == w.finished && x.overflowReported == w.overflowReported
  }

  function IfRoom(w: Window, bodies: seq<Body>): seq<Body> {
    if |w.emitted| + |bodies| <= 996 then bodies else []
  }

  lemma Degrades(w: Window, x: Window, reason: Reason)
    requires WindowOk(w) && !w.finished && SameStream(w, x)
    ensures reason.Overflow? ==> Adds(w, Degrade(x, reason), IfRoom(w, OverflowNotice(w)))
    ensures !reason.Overflow? ==> Adds(w, Degrade(x, reason), IfRoom(w, [CoverageDegraded(reason)]))
  {
    hide WindowOk, Adds, MaterializeAll, Materialize;
    Counts(w);
    var y := x.(disabled := true, overflowReported := true);
    OneIs(x, CoverageDegraded(reason));
    OneIs(y, CoverageDegraded(Overflow));
    AddsNothing(w, x);
    AddsNothing(w, y);
    AddsNothing(w, x.(disabled := true));
    AddsOne(w, x, CoverageDegraded(reason));
    AddsOne(w, y, CoverageDegraded(Overflow));
  }

  /** A window degraded from outside says so while there is a place for it, and moves no call. */
  lemma DegradesWindow(w: Window, reason: Reason)
    requires WindowOk(w) && !w.finished
    ensures reason.Overflow? ==> Adds(w, Degrade(w, reason), IfRoom(w, OverflowNotice(w)))
    ensures !reason.Overflow? ==> Adds(w, Degrade(w, reason), IfRoom(w, [CoverageDegraded(reason)]))
    ensures !Degrade(w, reason).finished
  {
    hide WindowOk, Adds, Admit;
    Degrades(w, w, reason);
    StepExtends(w, DoDegrade(reason));
  }

  /** What admission lets through of an ordinary answer. */
  function Ordinarily(w: Window, bodies: seq<Body>): seq<Body> {
    if bodies == [] || |w.emitted| + |bodies| <= 995 then bodies
    else if !w.overflowReported && |w.emitted| < 996 then [CoverageDegraded(Overflow)]
    else []
  }

  lemma AdmitsAll(w: Window, x: Window, bodies: seq<Body>)
    requires WindowOk(w) && SameStream(w, x) && |bodies| <= 2
    ensures Adds(w, MaterializeAll(x, bodies), bodies)
  {
    hide WindowOk, Adds, Materialize;
    Counts(w);
    if |bodies| == 0 {
      AddsNothing(w, x);
    } else if |bodies| == 1 {
      assert bodies == [bodies[0]];
      OneIs(x, bodies[0]);
      AddsOne(w, x, bodies[0]);
    } else {
      assert bodies == [bodies[0], bodies[1]];
      PairIs(x, bodies[0], bodies[1]);
      AddsTwo(w, x, bodies[0], bodies[1]);
    }
  }

  lemma Admits(w: Window, x: Window, bodies: seq<Body>)
    requires WindowOk(w) && SameStream(w, x) && |bodies| <= 2
    ensures Adds(w, Admit(x, bodies, Normal), Ordinarily(w, bodies))
  {
    hide WindowOk, Adds, MaterializeAll, Materialize;
    Counts(w);
    AddsNothing(w, x);
    AddsNothing(w, x.(disabled := true));
    AdmitsAll(w, x, bodies);
    AddsOne(w, x.(disabled := true, overflowReported := true), CoverageDegraded(Overflow));
  }

  lemma Closes(w: Window, x: Window, bodies: seq<Body>)
    requires WindowOk(w) && SameStream(w, x) && 0 < |bodies| <= 2 && |w.emitted| + |bodies| <= 997
    ensures Adds(w, Admit(x, bodies, Closing), bodies)
  {
    hide WindowOk, Adds, MaterializeAll, Materialize;
    Counts(w);
    AdmitsAll(w, x, bodies);
  }

  // ----- tool calls: what is said -----

  function EndSaid(w: Window, answer: seq<Body>): seq<Body> {
    if |answer| == 2 then Ordinarily(w, answer) else IfRoom(w, answer)
  }

  lemma StartOfPending(w: Window, c: string, tool: string)
    requires WindowOk(w) && !w.finished && !w.disabled && c in w.pending && c !in w.final
    ensures Adds(w, ReduceStart(w, Some((c, tool))), IfRoom(w, StartAnswer(w, c, tool)))
  {
    hide WindowOk, Adds, Degrade, Reservable;
    Counts(w);
    AddsNothing(w, w);
    Degrades(w, RememberFinal(DropPending(w, c), c, None, None), InvalidTransition);
  }

  lemma StartOfNew(w: Window, c: string, tool: string)
    requires WindowOk(w) && !w.finished && !w.disabled && c !in w.pending && c !in w.final
    ensures Adds(w, ReduceStart(w, Some((c, tool))), IfRoom(w, StartAnswer(w, c, tool)))
  {
    hide WindowOk, Adds, Degrade, Reservable;
    Counts(w);
    Degrades(w, w, Overflow);
    var pending := w.pending[c := PendingCall(StartPrint(c, tool), CALL_STATE_OVERHEAD_BYTES)];
    AddsNothing(w, w.(pending := pending, stateBytes := w.stateBytes + CALL_STATE_OVERHEAD_BYTES, turnOpen := true));
  }

  lemma AnswersStart(w: Window, c: string, tool: string)
    requires WindowOk(w) && !w.finished && !w.disabled
    ensures Adds(w, ReduceStart(w, Some((c, tool))), IfRoom(w, StartAnswer(w, c, tool)))
  {
    hide WindowOk, Adds, Degrade, Reservable, FinalOrOverflow;
    Counts(w);
    if c in w.final {
      AddsNothing(w, w);
      Degrades(w, w, InvalidTransition);
    } else if c in w.pending {
      StartOfPending(w, c, tool);
    } else {
      StartOfNew(w, c, tool);
    }
  }

  lemma EndOfPending(w: Window, c: string, tool: string, isError: bool)
    requires WindowOk(w) && !w.finished && !w.disabled && c in w.pending && c !in w.final
    ensures Adds(w, ReduceEnd(w, Some((c, tool, isError))), EndSaid(w, EndAnswer(w, c, tool, isError)))
  {
    hide WindowOk, Adds, Degrade, Reservable, Admit;
    Counts(w);
    var dropped := DropPending(w, c);
    var closed := RememberFinal(dropped, c, Some(StartPrint(c, tool)), Some(EndPrint(c, tool, isError)));
    Degrades(w, RememberFinal(dropped, c, None, None), InvalidTransition);
    Degrades(w, closed, AmbiguousError);
    Admits(w, closed, [ToolStarted(c, tool), ToolFinished(c)]);
  }

  lemma EndOfFinal(w: Window, c: string, tool: string, isError: bool)
    requires WindowOk(w) && !w.finished && !w.disabled && c in w.final
    ensures Adds(w, ReduceEnd(w, Some((c, tool, isError))), EndSaid(w, EndAnswer(w, c, tool, isError)))
  {
    hide WindowOk, Adds, Degrade, Reservable, Admit, FinalOrOverflow, DropPending;
    Counts(w);
    AddsNothing(w, w);
    Degrades(w, w, InvalidTransition);
    Degrades(w, w.(final := w.final[c := w.final[c].(end := Some(EndPrint(c, tool, isError)))]), InvalidTransition);
  }

  lemma EndOfUnknown(w: Window, c: string, tool: string, isError: bool)
    requires WindowOk(w) && !w.finished && !w.disabled && c !in w.pending && c !in w.final
    ensures Adds(w, ReduceEnd(w, Some((c, tool, isError))), EndSaid(w, EndAnswer(w, c, tool, isError)))
  {
    hide WindowOk, Adds, Degrade, Reservable, Admit, DropPending;
    Counts(w);
    Degrades(w, w, Overflow);
    Degrades(w, RememberFinal(w, c, None, Some(EndPrint(c, tool, isError))), InvalidTransition);
  }

  lemma AnswersEnd(w: Window, c: string, tool: string, isError: bool)
    requires WindowOk(w) && !w.finished && !w.disabled
    ensures Adds(w, ReduceEnd(w, Some((c, tool, isError))), EndSaid(w, EndAnswer(w, c, tool, isError)))
  {
    hide WindowOk, Adds, ReduceEnd, EndAnswer;
    Counts(w);
    if c in w.final {
      EndOfFinal(w, c, tool, isError);
    } else if c in w.pending {
      EndOfPending(w, c, tool, isError);
    } else {
      EndOfUnknown(w, c, tool, isError);
    }
  }

  lemma Disabled(w: Window, call: Option<(string, string)>, ended: Option<(string, string, bool)>)
    ensures w.disabled ==> ReduceStart(w, call) == w && ReduceEnd(w, ended) == w
    ensures !w.disabled && call.None? ==> ReduceStart(w, call) == Degrade(w, MissingField)
    ensures !w.disabled && ended.None? ==> ReduceEnd(w, ended) == Degrade(w, MissingField)
  {
    hide Degrade;
  }

  lemma AnswersToolStart(w: Window, call: Option<(string, string)>)
    requires WindowOk(w) && !w.finished
    ensures Adds(w, Reduce(w, ToolStart(call)), Said(w, ToolStart(call)))
  {
    hide WindowOk, Adds, Degrade, ReduceStart, StartAnswer;
    AddsNothing(w, w);
    Degrades(w, w, MissingField);
    Disabled(w, call, None);
    if call.Some? && !w.disabled {
      AnswersStart(w, call.value.0, call.value.1);
    }
  }

  lemma AnswersToolEnd(w: Window, ended: Option<(string, string, bool)>)
    requires WindowOk(w) && !w.finished
    ensures Adds(w, Reduce(w, ToolEnd(ended)), Said(w, ToolEnd(ended)))
  {
    hide WindowOk, Adds, Degrade, ReduceEnd, EndAnswer;
    AddsNothing(w, w);
    Degrades(w, w, MissingField);
    Disabled(w, None, ended);
    if ended.Some? && !w.disabled {
      AnswersEnd(w, ended.value.0, ended.value.1, ended.value.2);
    }
  }

  // ----- the other events: what is said -----

  lemma Cleared(w: Window)
    ensures ClearPending(w).pending == map[] && ClearPending(w).final.Keys == w.final.Keys + w.pending.Keys
    ensures SameStream(w, ClearPending(w)) && ClearPending(w).turnOpen == w.turnOpen
    ensures Unmatched(w) == Notice(w)
  {
  }

  lemma AnswersShutdown(w: Window, why: string)
    requires WindowOk(w) && !w.finished
    ensures Adds(w, ReduceShutdown(w, why), Said(w, SessionShutdown(Some(why))))
  {
    hide WindowOk, Adds, ClearPending, Admit, Unmatched, Notice;
    Counts(w);
    Cleared(w);
    NoticeShort(w);
    var x := ClearPending(w).(turnOpen := false);
    var bodies := Said(w, SessionShutdown(Some(why)));
    Closes(w, x, bodies);
    FinishAdds(w, Admit(x, bodies, Closing), bodies);
  }

  lemma FinishAdds(w: Window, x: Window, bodies: seq<Body>)
    requires Adds(w, x, bodies)
    ensures Adds(w, x.(finished := true), bodies)
  {
  }

  lemma AnswersBoundary(w: Window, turnOpen: bool, bodies: seq<Body>)
    requires WindowOk(w) && !w.finished && |bodies| <= 2
    ensures Adds(w, Admit(ClearPending(w).(turnOpen := turnOpen), bodies, Normal), Ordinarily(w, bodies))
  {
    hide WindowOk, Adds, ClearPending, Admit, Unmatched;
    Cleared(w);
    Admits(w, ClearPending(w).(turnOpen := turnOpen), bodies);
  }

  lemma SameTurn(w: Window)
    ensures ClearPending(w).(turnOpen := w.turnOpen) == ClearPending(w) && Unmatched(w) == Notice(w)
  {
  }

  lemma AnswersPlain(w: Window, e: Event)
    requires WindowOk(w) && !w.finished
    requires e.Ignored? || e.Unreadable? || e.BeforeAgentStart?
    ensures Adds(w, Reduce(w, e), Said(w, e))
  {
    hide WindowOk, Adds, Degrade;
    AddsNothing(w, w);
    AddsNothing(w, w.(turnOpen := true));
    Degrades(w, w, MissingField);
    Degrades(w, w, InvalidTransition);
  }

  lemma AnswersClearing(w: Window, e: Event)
    requires WindowOk(w) && !w.finished
    requires e.AgentSettled? || e.SessionCompact? || e.SessionTree? || e.SessionShutdown?
    ensures Adds(w, Reduce(w, e), Said(w, e))
  {
    hide WindowOk, Adds, Degrade, Admit, ClearPending, ReduceShutdown, Unmatched, Notice;
    SameTurn(w);
    Degrades(w, w, MissingField);
    NoticeShort(w);
    match e
    case AgentSettled => AnswersBoundary(w, false, Answer(w, e));
    case SessionCompact(c) => if c.Some? { AnswersBoundary(w, w.turnOpen, Answer(w, e)); }
    case SessionTree(m) => if m.Some? { AnswersBoundary(w, w.turnOpen, Answer(w, e)); }
    case SessionShutdown(why) => if why.Some? { AnswersShutdown(w, why.value); }
  }

  lemma NoticeShort(w: Window)
    ensures |Notice(w)| <= 1
  {
  }

  /** Every event of an unfinished window adds exactly what the table says, numbered on. */
  lemma Answers(w: Window, e: Event)
    requires WindowOk(w) && !w.finished
    ensures Adds(w, Reduce(w, e), Said(w, e))
  {
    hide WindowOk, Adds, Reduce, Answer;
    match e
    case ToolStart(call) => AnswersToolStart(w, call);
    case ToolEnd(ended) => AnswersToolEnd(w, ended);
    case Ignored => AnswersPlain(w, e);
    case Unreadable => AnswersPlain(w, e);
    case BeforeAgentStart => AnswersPlain(w, e);
    case _ => AnswersClearing(w, e);
  }

  lemma FinishesIff(w: Window, e: Event)
    requires !w.finished
    ensures Reduce(w, e).finished <==> e.SessionShutdown? && e.reason.Some?
  {
    hide Reduce;
    StepExtends(w, DoReduce(e));
  }

  // ----- where the calls go, room or not -----

  lemma {:induction false} MaterializeAllKeeps(w: Window, bodies: seq<Body>)
    ensures var w' := MaterializeAll(w, bodies); w'.pending == w.pending && w'.final == w.final && w'.turnOpen == w.turnOpen
    decreases |bodies|
  {
    if |bodies| > 0 {
      MaterializeAllKeeps(Materialize(w, bodies[0]), bodies[1..]);
    }
  }

  lemma AdmitKeeps(w: Window, bodies: seq<Body>, mode: Mode)
    ensures var w' := Admit(w, bodies, mode); w'.pending == w.pending && w'.final == w.final && w'.turnOpen == w.turnOpen
  {
    hide MaterializeAll;
    MaterializeAllKeeps(w, bodies);
  }

  lemma DegradeKeeps(w: Window, reason: Reason)
    ensures var w' := Degrade(w, reason); w'.pending == w.pending && w'.final == w.final && w'.turnOpen == w.turnOpen
  {
    hide Admit;
    AdmitKeeps(w, [CoverageDegraded(reason)], Degradation);
    AdmitKeeps(w.(disabled := true, overflowReported := true), [CoverageDegraded(Overflow)], Degradation);
  }

  predicate Placed(w: Window, pending: set<string>, final: set<string>, turnOpen: bool) {
    w.pending.Keys == pending && w.final.Keys == final && w.turnOpen == turnOpen
  }

  predicate Moved(w: Window, w': Window, e: Event) {
    Placed(w', PendingAfter(w, e), FinalAfter(w, e), TurnAfter(w, e))
  }

  lemma StaysPlaced(w: Window)
    ensures Placed(w, w.pending.Keys, w.final.Keys, w.turnOpen)
    ensures Placed(w.(turnOpen := true), w.pending.Keys, w.final.Keys, true)
    ensures forall reason :: Placed(Degrade(w, reason), w.pending.Keys, w.final.Keys, w.turnOpen)
  {
    forall reason
      ensures Placed(Degrade(w, reason), w.pending.Keys, w.final.Keys, w.turnOpen)
    {
      DegradeKeeps(w, reason);
    }
    hide Degrade;
  }

  lemma AddsPending(w: Window, c: string, start: StartPrint)
    ensures var pending := w.pending[c := PendingCall(start, CALL_STATE_OVERHEAD_BYTES)];
            Placed(w.(pending := pending, stateBytes := w.stateBytes + CALL_STATE_OVERHEAD_BYTES, turnOpen := true),
                   w.pending.Keys + {c}, w.final.Keys, true)
  {
  }

  lemma BecomesFinal(w: Window, c: string, start: Option<StartPrint>, end: Option<EndPrint>)
    ensures Placed(RememberFinal(w, c, start, end), w.pending.Keys, w.final.Keys + {c}, w.turnOpen)
    ensures c in w.pending ==> Placed(RememberFinal(DropPending(w, c), c, start, end), w.pending.Keys - {c}, w.final.Keys + {c}, w.turnOpen)
    ensures c in w.final ==> Placed(w.(final := w.final[c := w.final[c].(end := end)]), w.pending.Keys, w.final.Keys, w.turnOpen)
  {
  }

  lemma DegradedPlaced(w: Window, reason: Reason, pending: set<string>, final: set<string>, turnOpen: bool)
    requires Placed(w, pending, final, turnOpen)
    ensures Placed(Degrade(w, reason), pending, final, turnOpen)
  {
    hide Degrade;
    DegradeKeeps(w, reason);
  }

  lemma AdmittedPlaced(w: Window, bodies: seq<Body>, mode: Mode, pending: set<string>, final: set<string>, turnOpen: bool)
    requires Placed(w, pending, final, turnOpen)
    ensures Placed(Admit(w, bodies, mode), pending, final, turnOpen)
  {
    hide Admit;
    AdmitKeeps(w, bodies, mode);
  }

  lemma StartPlacedPending(w: Window, c: string, tool: string)
    requires !w.disabled && c in w.pending && c !in w.final && Reservable(DropPending(w, c), FINAL_CALL_STATE_BYTES)
    ensures if w.pending[c].start == StartPrint(c, tool) then ReduceStart(w, Some((c, tool))) == w
            else Placed(ReduceStart(w, Some((c, tool))), w.pending.Keys - {c}, w.final.Keys + {c}, w.turnOpen)
  {
    hide Degrade, Reservable, Placed, DropPending, RememberFinal;
    BecomesFinal(w, c, None, None);
    DegradedPlaced(RememberFinal(DropPending(w, c), c, None, None), InvalidTransition, w.pending.Keys - {c}, w.final.Keys + {c}, w.turnOpen);
  }

  lemma StartPlacedOther(w: Window, c: string, tool: string)
    requires !w.disabled && c !in w.pending && Reservable(w, CALL_STATE_OVERHEAD_BYTES)
    ensures var w' := ReduceStart(w, Some((c, tool)));
            if c in w.final || |w.pending| + |w.final| >= 1_000 then Placed(w', w.pending.Keys, w.final.Keys, w.turnOpen)
            else Placed(w', w.pending.Keys + {c}, w.final.Keys, true)
  {
    hide Degrade, Reservable, Placed;
    StaysPlaced(w);
    AddsPending(w, c, StartPrint(c, tool));
  }

  lemma MovesStart(w: Window, call: Option<(string, string)>)
    requires WindowOk(w) && !w.finished
    ensures Moved(w, Reduce(w, ToolStart(call)), ToolStart(call))
  {
    hide WindowOk, Degrade, Reservable, Placed, DropPending, ReduceStart;
    Counts(w);
    StaysPlaced(w);
    Disabled(w, call, None);
    if call.Some? && !w.disabled {
      var (c, tool) := call.value;
      if c in w.pending {
        StartPlacedPending(w, c, tool);
      } else {
        StartPlacedOther(w, c, tool);
      }
    }
  }

  lemma MovesEndKnown(w: Window, c: string, tool: string, isError: bool)
    requires WindowOk(w) && !w.finished && !w.disabled
    ensures Moved(w, ReduceEnd(w, Some((c, tool, isError))), ToolEnd(Some((c, tool, isError))))
  {
    hide WindowOk, Reservable, ReduceEnd, Placed, DropPending;
    Counts(w);
    if c in w.final {
      MovesEndFinal(w, c, tool, isError);
    } else if c in w.pending {
      MovesEndPending(w, c, tool, isError);
    } else {
      MovesEndUnknown(w, c, tool, isError);
    }
  }

  lemma EndUnheeded(w: Window, ended: Option<(string, string, bool)>)
    requires w.disabled || ended.None?
    ensures Moved(w, ReduceEnd(w, ended), ToolEnd(ended))
  {
    hide Degrade, ReduceEnd, Placed;
    StaysPlaced(w);
    Disabled(w, None, ended);
  }

  lemma MovesEnd(w: Window, ended: Option<(string, string, bool)>)
    requires WindowOk(w) && !w.finished
    ensures Moved(w, Reduce(w, ToolEnd(ended)), ToolEnd(ended))
  {
    hide WindowOk, ReduceEnd, Moved;
    if w.disabled || ended.None? {
      EndUnheeded(w, ended);
    } else {
      var (c, tool, isError) := ended.value;
      MovesEndKnown(w, c, tool, isError);
      assert ended == Some((c, tool, isError));
    }
  }

  lemma MovesEndFinal(w: Window, c: string, tool: string, isError: bool)
    requires !w.disabled && c in w.final && c !in w.pending
    ensures Placed(ReduceEnd(w, Some((c, tool, isError))), w.pending.Keys, w.final.Keys, w.turnOpen)
  {
    hide Degrade, Reservable, Placed;
    StaysPlaced(w);
    BecomesFinal(w, c, None, Some(EndPrint(c, tool, isError)));
    var noted := w.(final := w.final[c := w.final[c].(end := Some(EndPrint(c, tool, isError)))]);
    DegradedPlaced(noted, InvalidTransition, w.pending.Keys, w.final.Keys, w.turnOpen);
  }

  lemma MovesEndPending(w: Window, c: string, tool: string, isError: bool)
    requires !w.disabled && c !in w.final && c in w.pending && Reservable(DropPending(w, c), FINAL_CALL_STATE_BYTES)
    ensures Placed(ReduceEnd(w, Some((c, tool, isError))), w.pending.Keys - {c}, w.final.Keys + {c}, w.turnOpen)
  {
    hide Degrade, Reservable, Admit, Placed, DropPending, RememberFinal;
    var start, end := StartPrint(c, tool), EndPrint(c, tool, isError);
    var closed := RememberFinal(DropPending(w, c), c, Some(start), Some(end));
    BecomesFinal(w, c, None, None);
    BecomesFinal(w, c, Some(start), Some(end));
    var pending, final := w.pending.Keys - {c}, w.final.Keys + {c};
    DegradedPlaced(RememberFinal(DropPending(w, c), c, None, None), InvalidTransition, pending, final, w.turnOpen);
    DegradedPlaced(closed, AmbiguousError, pending, final, w.turnOpen);
    AdmittedPlaced(closed, [ToolStarted(c, tool), ToolFinished(c)], Normal, pending, final, w.turnOpen);
  }

  lemma MovesEndUnknown(w: Window, c: string, tool: string, isError: bool)
    requires !w.disabled && c !in w.final && c !in w.pending && Reservable(w, FINAL_CALL_STATE_BYTES)
    ensures Placed(ReduceEnd(w, Some((c, tool, isError))), w.pending.Keys,
                   if |w.pending| + |w.final| < 1_000 then w.final.Keys + {c} else w.final.Keys, w.turnOpen)
  {
    hide Degrade, Reservable, Placed, RememberFinal;
    StaysPlaced(w);
    BecomesFinal(w, c, None, Some(EndPrint(c, tool, isError)));
    DegradedPlaced(RememberFinal(w, c, None, Some(EndPrint(c, tool, isError))), InvalidTransition, w.pending.Keys, w.final.Keys + {c}, w.turnOpen);
  }

  lemma MovesPlain(w: Window, e: Event)
    requires !w.finished && (e.Ignored? || e.Unreadable? || e.BeforeAgentStart?)
    ensures Moved(w, Reduce(w, e), e)
  {
    hide Degrade, Placed;
    StaysPlaced(w);
  }

  lemma ClearedPlaced(w: Window, turnOpen: bool, bodies: seq<Body>, mode: Mode)
    ensures Placed(Admit(ClearPending(w).(turnOpen := turnOpen), bodies, mode), {}, w.final.Keys + w.pending.Keys, turnOpen)
  {
    hide Admit, ClearPending;
    Cleared(w);
    AdmittedPlaced(ClearPending(w).(turnOpen := turnOpen), bodies, mode, {}, w.final.Keys + w.pending.Keys, turnOpen);
  }

  lemma FinishedPlaced(w: Window, pending: set<string>, final: set<string>, turnOpen: bool)
    requires Placed(w, pending, final, turnOpen)
    ensures Placed(w.(finished := true), pending, final, turnOpen)
  {
  }

  lemma MovesClearing(w: Window, e: Event)
    requires !w.finished && (e.AgentSettled? || e.SessionCompact? || e.SessionTree? || e.SessionShutdown?)
    ensures Moved(w, Reduce(w, e), e)
  {
    hide Degrade, Admit, ClearPending, Unmatched, Placed;
    StaysPlaced(w);
    SameTurn(w);
    match e
    case AgentSettled => ClearedPlaced(w, false, Unmatched(w) + if w.turnOpen then [TurnFinished] else [], Normal);
    case SessionCompact(c) =>
      if c.Some? { ClearedPlaced(w, w.turnOpen, Unmatched(w) + [Compaction(c.value.0, c.value.1, c.value.2)], Normal); }
    case SessionTree(m) =>
      if m.Some? { ClearedPlaced(w, w.turnOpen, Unmatched(w) + [TreeMove(m.value.0, m.value.1)], Normal); }
    case SessionShutdown(why) => if why.Some? { MovesShutdown(w, why.value); }
  }

  lemma MovesShutdown(w: Window, why: string)
    ensures Placed(ReduceShutdown(w, why), {}, w.final.Keys + w.pending.Keys, false)
  {
    hide Admit, ClearPending, Unmatched, Placed;
    var bodies := Unmatched(w) + [SessionFinished(why)];
    var kept := if w.recordCount + |bodies| > MAX_REDUCED_RECORDS_PER_WINDOW then [SessionFinished(why)] else bodies;
    ClearedPlaced(w, false, kept, Closing);
    FinishedPlaced(Admit(ClearPending(w).(turnOpen := false), kept, Closing), {}, w.final.Keys + w.pending.Keys, false);
  }

  /** Every event of an unfinished window moves its calls and its turn exactly as the tables say. */
  lemma Moves(w: Window, e: Event)
    requires WindowOk(w) && !w.finished
    ensures Moved(w, Reduce(w, e), e)
  {
    hide WindowOk, Reduce, Moved;
    match e
    case ToolStart(call) => MovesStart(w, call);
    case ToolEnd(ended) => MovesEnd(w, ended);
    case Ignored => MovesPlain(w, e);
    case Unreadable => MovesPlain(w, e);
    case BeforeAgentStart => MovesPlain(w, e);
    case _ => MovesClearing(w, e);
  }

  // ----- what is remembered of a call -----

  /** A new start is remembered as it came, and a call that ends as it started and ended. */
  lemma RemembersCall(w: Window, c: string, tool: string, isError: bool)
    requires WindowOk(w) && !w.finished && !w.disabled && c !in w.final
    ensures c !in w.pending && |w.pending| + |w.final| < 1_000 ==>
      var w' := Reduce(w, ToolStart(Some((c, tool))));
      c in w'.pending && w'.pending[c].start == StartPrint(c, tool)
    ensures c in w.pending && w.pending[c].start == StartPrint(c, tool) ==>
      var w' := Reduce(w, ToolEnd(Some((c, tool, isError))));
      c in w'.final && w'.final[c].start == Some(StartPrint(c, tool)) && w'.final[c].end == Some(EndPrint(c, tool, isError))
  {
    hide WindowOk, Degrade, Reservable, Admit;
    Counts(w);
    if c in w.pending {
      var closed := RememberFinal(DropPending(w, c), c, Some(StartPrint(c, tool)), Some(EndPrint(c, tool, isError)));
      DegradeKeeps(closed, AmbiguousError);
      AdmitKeeps(closed, [ToolStarted(c, tool), ToolFinished(c)], Normal);
    }
  }

  // ----- disabling -----

  predicate Flagged(w: Window, disabled: bool, reported: bool) {
    w.disabled == disabled && w.overflowReported == reported
  }

  lemma DegradeFlags(w: Window, x: Window, reason: Reason)
    requires !x.finished && x.disabled == w.disabled && x.overflowReported == w.overflowReported
    ensures Flagged(Degrade(x, reason), w.disabled || reason.Overflow?, w.overflowReported || reason.Overflow?)
  {
    hide MaterializeAll;
    MaterializeAllFlags(x, [CoverageDegraded(reason)]);
    MaterializeAllFlags(x.(disabled := true, overflowReported := true), [CoverageDegraded(Overflow)]);
  }

  lemma {:induction false} MaterializeAllFlags(w: Window, bodies: seq<Body>)
    ensures Flagged(MaterializeAll(w, bodies), w.disabled, w.overflowReported)
    decreases |bodies|
  {
    if |bodies| > 0 {
      MaterializeAllFlags(Materialize(w, bodies[0]), bodies[1..]);
    }
  }

  lemma AdmitFlags(w: Window, x: Window, bodies: seq<Body>)
    requires WindowOk(w) && SameStream(w, x) && x.disabled == w.disabled
    ensures var over := bodies != [] && |w.emitted| + |bodies| > 995;
            Flagged(Admit(x, bodies, Normal), w.disabled || over, w.overflowReported || (over && |w.emitted| < 996))
  {
    hide WindowOk, MaterializeAll;
    Counts(w);
    MaterializeAllFlags(x, bodies);
  }

  lemma StartFlagsPending(w: Window, c: string, tool: string)
    requires !w.finished && !w.disabled && c in w.pending && c !in w.final && Reservable(DropPending(w, c), FINAL_CALL_STATE_BYTES)
    ensures Flagged(ReduceStart(w, Some((c, tool))), false, w.overflowReported)
  {
    hide Degrade, Reservable;
    DegradeFlags(w, RememberFinal(DropPending(w, c), c, None, None), InvalidTransition);
  }

  lemma StartFlagsOther(w: Window, c: string, tool: string)
    requires !w.finished && !w.disabled && c !in w.pending && Reservable(w, CALL_STATE_OVERHEAD_BYTES)
    ensures var full := c !in w.final && |w.pending| + |w.final| >= 1_000;
            Flagged(ReduceStart(w, Some((c, tool))), full, w.overflowReported || full)
  {
    hide Degrade, Reservable;
    DegradeFlags(w, w, InvalidTransition);
    DegradeFlags(w, w, Overflow);
  }

  lemma StartFlags(w: Window, c: string, tool: string)
    requires WindowOk(w) && !w.finished && !w.disabled
    ensures var e := ToolStart(Some((c, tool)));
            Flagged(ReduceStart(w, Some((c, tool))), DisabledAfter(w, e), ReportedAfter(w, e))
  {
    hide WindowOk, Reservable, ReduceStart, DropPending, StartAnswer;
    Counts(w);
    if c in w.pending {
      StartFlagsPending(w, c, tool);
    } else {
      StartFlagsOther(w, c, tool);
    }
  }

  lemma FlagsStay(w: Window)
    ensures Flagged(w, w.disabled, w.overflowReported)
    ensures Flagged(w.(turnOpen := true), w.disabled, w.overflowReported)
  {
  }

  lemma EndFlagsPending(w: Window, c: string, tool: string, isError: bool)
    requires WindowOk(w) && !w.finished && !w.disabled && c in w.pending && c !in w.final
    requires Reservable(DropPending(w, c), FINAL_CALL_STATE_BYTES)
    ensures var over := w.pending[c].start == StartPrint(c, tool) && !isError && |w.emitted| + 2 > 995;
            Flagged(ReduceEnd(w, Some((c, tool, isError))), over, w.overflowReported || (over && |w.emitted| < 996))
  {
    hide WindowOk, Degrade, Reservable, Admit;
    var closed := RememberFinal(DropPending(w, c), c, Some(StartPrint(c, tool)), Some(EndPrint(c, tool, isError)));
    DegradeFlags(w, RememberFinal(DropPending(w, c), c, None, None), InvalidTransition);
    DegradeFlags(w, closed, AmbiguousError);
    AdmitFlags(w, closed, [ToolStarted(c, tool), ToolFinished(c)]);
  }

  lemma EndFlagsOther(w: Window, c: string, tool: string, isError: bool)
    requires !w.finished && !w.disabled && (c in w.final || c !in w.pending) && Reservable(w, FINAL_CALL_STATE_BYTES)
    ensures var full := c !in w.final && |w.pending| + |w.final| >= 1_000;
            Flagged(ReduceEnd(w, Some((c, tool, isError))), full, w.overflowReported || full)
  {
    hide Degrade, Reservable;
    var end := Some(EndPrint(c, tool, isError));
    DegradeFlags(w, w, InvalidTransition);
    DegradeFlags(w, w, Overflow);
    DegradeFlags(w, RememberFinal(w, c, None, end), InvalidTransition);
    if c in w.final {
      DegradeFlags(w, w.(final := w.final[c := w.final[c].(end := end)]), InvalidTransition);
    }
  }

  lemma EndFlags(w: Window, c: string, tool: string, isError: bool)
    requires WindowOk(w) && !w.finished && !w.disabled
    ensures var e := ToolEnd(Some((c, tool, isError)));
            Flagged(ReduceEnd(w, Some((c, tool, isError))), DisabledAfter(w, e), ReportedAfter(w, e))
  {
    hide WindowOk, Reservable, ReduceEnd, DropPending;
    Counts(w);
    if c in w.pending && c !in w.final {
      EndFlagsPending(w, c, tool, isError);
    } else {
      EndFlagsOther(w, c, tool, isError);
    }
  }

  lemma ClearFlags(w: Window, turnOpen: bool, bodies: seq<Body>)
    requires WindowOk(w)
    ensures var over := bodies != [] && |w.emitted| + |bodies| > 995;
            Flagged(Admit(ClearPending(w).(turnOpen := turnOpen), bodies, Normal), w.disabled || over, w.overflowReported || (over && |w.emitted| < 996))
  {
    hide WindowOk, Admit, Flagged;
    AdmitFlags(w, ClearPending(w).(turnOpen := turnOpen), bodies);
  }

  lemma ToolFlags(w: Window, e: Event)
    requires WindowOk(w) && !w.finished && (e.ToolStart? || e.ToolEnd?)
    ensures Flagged(Reduce(w, e), DisabledAfter(w, e), ReportedAfter(w, e))
  {
    hide WindowOk, Degrade, ReduceStart, ReduceEnd, Flagged, StartAnswer, EndAnswer;
    FlagsStay(w);
    DegradeFlags(w, w, MissingField);
    if e.ToolStart? {
      Disabled(w, e.call, None);
      if e.call.Some? && !w.disabled {
        StartFlags(w, e.call.value.0, e.call.value.1);
      }
    } else {
      Disabled(w, None, e.ended);
      if e.ended.Some? && !w.disabled {
        EndFlags(w, e.ended.value.0, e.ended.value.1, e.ended.value.2);
      }
    }
  }

  lemma OtherFlags(w: Window, e: Event)
    requires WindowOk(w) && !w.finished && !e.ToolStart? && !e.ToolEnd? && !(e.SessionShutdown? && e.reason.Some?)
    ensures Flagged(Reduce(w, e), DisabledAfter(w, e), ReportedAfter(w, e))
  {
    hide WindowOk, Degrade, Admit, ClearPending, Unmatched, Flagged, Notice;
    FlagsStay(w);
    SameTurn(w);
    DegradeFlags(w, w, MissingField);
    DegradeFlags(w, w, InvalidTransition);
    match e
    case AgentSettled => ClearFlags(w, false, Answer(w, e));
    case SessionCompact(c) => if c.Some? { ClearFlags(w, w.turnOpen, Answer(w, e)); }
    case SessionTree(m) => if m.Some? { ClearFlags(w, w.turnOpen, Answer(w, e)); }
    case _ =>
  }

  /** An unfinished window that goes on is disabled, and its overflow notice spent, exactly as the tables say. */
  lemma Disables(w: Window, e: Event)
    requires WindowOk(w) && !w.finished && !(e.SessionShutdown? && e.reason.Some?)
    ensures Reduce(w, e).disabled <==> DisabledAfter(w, e)
    ensures Reduce(w, e).overflowReported <==> ReportedAfter(w, e)
  {
    hide WindowOk, Reduce, DisabledAfter, ReportedAfter;
    if e.ToolStart? || e.ToolEnd? {
      ToolFlags(w, e);
    } else {
      OtherFlags(w, e);
    }
  }
}
