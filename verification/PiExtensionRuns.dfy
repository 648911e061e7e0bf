/** Over every run of the Pi extension: nothing lost unmarked, nothing handed over twice, bytes exact. */
module PiExtensionRuns {
  import opened Util
  import opened Transport
  import C = CaptureRuntime
  import opened RuntimeHistory
  import RuntimeSafety
  import RuntimeBytes
  import opened PiExtension
  import P = PiReducer
  import PiGrammar
  import PiRuns
  import RuntimeRuns

  // ----- one flush -----

  lemma OwnTrans(s: State, t: State, u: State, own: seq<Record>)
    requires RuntimeSafety.OwnStep(s, t, own) && RuntimeSafety.OwnStep(t, u, own)
    ensures RuntimeSafety.OwnStep(s, u, own)
  {
    hide C.Taken, C.HandedRecords, C.Unaccounted, C.ConfirmedRecords, LogOk, StateOk;
  }

  /** The loop over the chunks, when the permits are free: every chunk is handed over. */
  lemma {:induction false} WriteAllOk(k: Key, f: C.Flush, flight: Flight, t: State, world: World)
    requires f.stage == C.Writing(flight) && FlushOk(k, f, t) && StateOk(t) && LogOk(t.log)
    requires !flight.writing && flight.next <= |flight.chunks|
    ensures var (t', end) := WriteAll(t, flight, world);
            && RuntimeSafety.OwnStep(t, t', f.records) && t'.active == t.active
            && FlushOk(k, f.(stage := C.Writing(end)), t')
            && (t.active < MAX_CONCURRENT_WRITES ==> end.started - flight.started == |flight.chunks| - flight.next)
            && end.started >= flight.started && end.chunks == flight.chunks
    decreases |flight.chunks| - flight.next
  {
    hide FlushOk, RuntimeSafety.OwnStep, LogOk, StateOk;
    if flight.next == |flight.chunks| {
      RuntimeSafety.StayOwnStep(t, f.records);
    } else {
      var (t1, f1) := StartWrite(t, flight);
      RuntimeSafety.ChunkStarted(k, f, t);
      OwnParts(t, t1, f.records);
      var g1 := f.(stage := C.Writing(f1));
      if f1.writing {
        var (t2, f2) := SettleWrite(t1, f1, world.ok(t1.log, f1.next));
        RuntimeSafety.ChunkSettled(k, g1, t1, world.ok(t1.log, f1.next));
        OwnParts(t1, t2, f.records);
        var g2 := f.(stage := C.Writing(f2));
        assert g1.(stage := C.Writing(f2)) == g2;
        WriteAllOk(k, g2, f2, t2, world);
        OwnTrans(t, t1, t2, f.records);
        OwnTrans(t, t2, WriteAll(t2, f2, world).0, f.records);
      } else {
        WriteAllOk(k, g1, f1, t1, world);
        OwnTrans(t, t1, WriteAll(t1, f1, world).0, f.records);
      }
    }
  }

  lemma OwnParts(t: State, t': State, own: seq<Record>)
    requires RuntimeSafety.OwnStep(t, t', own)
    ensures StateOk(t') && LogOk(t'.log)
  {
  }

  /** Records of `k` that were taken in, in distinct occurrences, and never handed over. */
  ghost predicate Flushable(k: Key, records: seq<Record>, t: State) {
    Distinct(records) && forall x <- records :: Belongs(x, k, t.log) && x !in C.HandedRecords(t.log)
  }

  ghost predicate TransportFine(t: State) {
    StateOk(t) && LogOk(t.log) && C.HandedRecords(t.log) <= C.Taken(t.log)
  }

  /** A whole flush: nothing of it stays owed; unless no write began, all of it may have been handed over. */
  lemma FlushAllOk(t: State, k: Key, records: seq<Record>, force: bool, world: World)
    requires TransportFine(t) && WorldOk(world) && Flushable(k, records, t)
    ensures var (t', result) := FlushAll(t, k, records, force, world);
            && RuntimeSafety.OwnStep(t, t', records) && t'.active == t.active
            && (forall x <- records :: x !in C.Unaccounted(t'.log))
            && (result.NotStarted? ==> forall x <- records :: x !in C.HandedRecords(t'.log))
            && (t.active < MAX_CONCURRENT_WRITES ==> !result.NotStarted?)
  {
    hide FlushOk, RuntimeSafety.OwnStep, LogOk, StateOk, C.HandedRecords, C.Taken, C.Unaccounted, C.ConfirmedRecords, MarkGap, Finish, EventsFor, ValidBuild;
    var f := C.Flush(records, 0, C.Queued);
    QueuedOk(k, records, t);
    var build := world.build(t.log, EventsFor(t, k, records));
    var (t1, begun) := Begin(t, k, records, force, build);
    RuntimeSafety.BegunOk(k, f, t, force, build);
    RuntimeSafety.MarkOwnStep(t, k, records);
    RuntimeSafety.StayOwnStep(t, records);
    RuntimeSafety.OwnKeys(k, f, t);
    NoEventsNoRecords(t, k, records);
    if begun.Flying? {
      var flight := begun.flight;
      var g := f.(stage := C.Writing(flight));
      WriteAllOk(k, g, flight, t, world);
      var (t2, end) := WriteAll(t, flight, world);
      OwnParts(t, t2, records);
      var done := g.(stage := C.Writing(end));
      assert f.(stage := C.Writing(end)) == done;
      RuntimeSafety.FinishedOwn(k, done, t2);
      OwnTrans(t, t2, Finish(t2, end).0, records);
      StartedFinish(t2, end);
      FlightHasChunks(k, done, t2);
      UnsentUnhanded(k, done, t2, Finish(t2, end).0);
    }
  }

  lemma NoEventsNoRecords(t: State, k: Key, records: seq<Record>)
    ensures |EventsFor(t, k, records)| == 0 ==> |records| == 0
  {
  }

  lemma StartedFinish(t: State, f: Flight)
    requires f.next == |f.chunks| && !f.writing
    ensures f.started > 0 ==> !Finish(t, f).1.NotStarted?
  {
  }

  lemma FlightHasChunks(k: Key, f: C.Flush, t: State)
    requires FlushOk(k, f, t) && f.stage.Writing?
    ensures |f.stage.flight.chunks| > 0
  {
  }

  lemma UnsentUnhanded(k: Key, f: C.Flush, t: State, t': State)
    requires FlushOk(k, f, t) && RuntimeSafety.OwnStep(t, t', [])
    ensures Unsent(f) == (set x <- f.records) ==> forall x <- f.records :: x !in C.HandedRecords(t'.log)
  {
    hide C.HandedRecords, C.Taken, C.Unaccounted, C.ConfirmedRecords, LogOk, StateOk, FlightFits;
  }

  lemma QueuedOk(k: Key, records: seq<Record>, t: State)
    requires Flushable(k, records, t)
    ensures FlushOk(k, C.Flush(records, 0, C.Queued), t)
  {
    hide C.HandedRecords, C.Taken, C.Unaccounted;
  }

  // ----- the active window -----

  ghost predicate SerialsBelow(t: State, k: Key, bound: nat) {
    forall x <- C.Taken(t.log) :: x.key == k ==> x.serial < bound
  }

  /** The active window between callbacks: its bytes exact, its records neither handed over nor repeated. */
  ghost predicate ActiveOk(a: Active, t: State) {
    var k := KeyOf(a.reducer.coordinates);
    && PiGrammar.WindowOk(a.reducer)
    && Flushable(k, a.records, t) && a.bytes == RuntimeBytes.RecordBytes(a.records)
    && SerialsBelow(t, k, a.reducer.nextEventID)
  }

  /** Whatever is still owed is buffered, or among `more`. */
  ghost predicate OwedIn(t: State, records: seq<Record>, more: seq<Record>) {
    forall x <- C.Unaccounted(t.log) :: x in records || x in more
  }

  ghost predicate Calm(t: State) {
    TransportFine(t) && t.active == 0
  }

  ghost predicate ExtensionOk(e: Extension) {
    && Calm(e.transport)
    && (e.active.Some? ==> ActiveOk(e.active.value, e.transport))
    && OwedIn(e.transport, if e.active.Some? then e.active.value.records else [], [])
  }

  lemma OwnFine(t: State, t': State, own: seq<Record>)
    requires Calm(t) && RuntimeSafety.OwnStep(t, t', own) && t'.active == t.active
    requires forall x <- own :: x in C.Taken(t.log)
    ensures Calm(t')
  {
    hide C.HandedRecords, C.Taken, C.Unaccounted, C.ConfirmedRecords, LogOk, StateOk;
  }

  /** Flushing empties the buffer: with the permits free some write always begins. */
  lemma FlushOne(t: State, a: Active, force: bool, world: World, more: seq<Record>)
    requires Calm(t) && WorldOk(world) && OwedIn(t, a.records, more)
    requires Flushable(KeyOf(a.reducer.coordinates), a.records, t) && a.bytes == RuntimeBytes.RecordBytes(a.records)
    requires Flushable(KeyOf(a.reducer.coordinates), more, t) && forall x <- more :: x !in a.records
    ensures var (t', a') := Flush(t, a, force, world);
            && Calm(t') && a' == a.(records := [], bytes := 0) && OwedIn(t', [], more)
            && Flushable(KeyOf(a.reducer.coordinates), more, t')
            && C.Taken(t'.log) == C.Taken(t.log)
  {
    hide C.HandedRecords, C.Taken, C.Unaccounted, C.ConfirmedRecords, LogOk, StateOk, FlushAll;
    var k := KeyOf(a.reducer.coordinates);
    if force || |a.records| > 0 {
      FlushAllOk(t, k, a.records, force, world);
      OwnFine(t, FlushAll(t, k, a.records, force, world).0, a.records);
    }
  }

  // ----- what is appended -----

  /** Freshly emitted records: numbered from `low` up to `high`. */
  ghost predicate Ascending(reduced: seq<PiRecord>, low: nat, high: nat) {
    low + |reduced| == high && forall i | 0 <= i < |reduced| :: reduced[i].eventID == low + i
  }

  /** A group of records of `k` with distinct serials from `low` up to `high`. */
  ghost predicate GroupFresh(group: seq<Record>, k: Key, low: nat, high: nat) {
    Distinct(group) && forall x <- group :: x.key == k && low <= x.serial < high
  }

  lemma {:induction false} NormalFresh(k: Key, reduced: seq<PiRecord>, world: World, low: nat, high: nat)
    requires Ascending(reduced, low, high)
    ensures GroupFresh(Normal(k, reduced, world), k, low, high)
  {
    if |reduced| > 0 {
      assert Ascending(reduced[1..], low + 1, high) by {
        assert forall i | 0 <= i < |reduced| - 1 :: reduced[1..][i] == reduced[i + 1];
      }
      NormalFresh(k, reduced[1..], world, low + 1, high);
      var rest := Normal(k, reduced[1..], world);
      var first := Normal(k, reduced, world)[0];
      assert Normal(k, reduced, world) == [first] + rest && first.serial == low;
      forall i, j | 0 <= i < j < |[first] + rest|
        ensures ([first] + rest)[i] != ([first] + rest)[j]
      {
        assert ([first] + rest)[j] == rest[j - 1] && rest[j - 1] in rest;
      }
    }
  }

  lemma {:induction false} OversizedInRange(reduced: seq<PiRecord>, world: World, low: nat, high: nat)
    requires Ascending(reduced, low, high) && FirstOversized(reduced, world).Some?
    ensures low <= FirstOversized(reduced, world).value.eventID < high
  {
    if world.size(reduced[0]).Some? {
      assert forall i | 0 <= i < |reduced| - 1 :: reduced[1..][i] == reduced[i + 1];
      OversizedInRange(reduced[1..], world, low + 1, high);
    }
  }

  lemma GroupIsFresh(k: Key, reduced: seq<PiRecord>, world: World, low: nat, high: nat)
    requires Ascending(reduced, low, high)
    ensures GroupFresh(Group(k, reduced, world), k, low, high)
  {
    hide Ascending;
    if FirstOversized(reduced, world).Some? {
      OversizedInRange(reduced, world, low, high);
    } else {
      NormalFresh(k, reduced, world, low, high);
    }
  }

  /** The record as it is appended when nothing in its group is oversize. */
  function Normalized(k: Key, r: PiRecord, world: World): Record
    requires world.size(r).Some?
  {
    Record(k, r.eventID, world.size(r).value, r.body.SessionFinished?)
  }

  ghost predicate Oversized(reduced: seq<PiRecord>, world: World) {
    exists q <- reduced :: world.size(q).None?
  }

  lemma {:induction false} FirstOversizedIs(reduced: seq<PiRecord>, world: World)
    ensures var first := FirstOversized(reduced, world);
            (first.Some? <==> Oversized(reduced, world))
            && (first.Some? ==> first.value in reduced && world.size(first.value).None?)
  {
    if |reduced| > 0 {
      FirstOversizedIs(reduced[1..], world);
      assert forall q <- reduced :: q == reduced[0] || q in reduced[1..];
      assert forall q <- reduced[1..] :: q in reduced;
      assert reduced[0] in reduced;
    }
  }

  lemma {:induction false} NormalKeeps(k: Key, reduced: seq<PiRecord>, world: World, r: PiRecord)
    requires r in reduced && world.size(r).Some?
    ensures Normalized(k, r, world) in Normal(k, reduced, world)
  {
    if r != reduced[0] {
      NormalKeeps(k, reduced[1..], world, r);
    }
  }

  /**
   * What stands for an emitted record in the buffer: the record itself, unless
   * one of its group is oversize; then one placeholder, no terminal, stands for
   * the whole group.
   */
  lemma GroupStandsFor(k: Key, reduced: seq<PiRecord>, world: World, r: PiRecord)
    requires r in reduced
    ensures if Oversized(reduced, world) then
              exists q <- reduced ::
                world.size(q).None? && Group(k, reduced, world) == [Record(k, q.eventID, world.placeholder(q), false)]
            else world.size(r).Some? && Normalized(k, r, world) in Group(k, reduced, world)
  {
    FirstOversizedIs(reduced, world);
    if FirstOversized(reduced, world).None? {
      assert world.size(r).Some?;
      NormalKeeps(k, reduced, world, r);
    }
  }

  /** Taking a group in adds it to what was taken and to what is owed, and changes nothing else. */
  ghost predicate TookGroup(t: State, t': State, group: seq<Record>) {
    && t' == t.(log := t'.log)
    && C.Taken(t'.log) == C.Taken(t.log) + (set x <- group)
    && C.Unaccounted(t'.log) == C.Unaccounted(t.log) + (set x <- group)
    && C.HandedRecords(t'.log) == C.HandedRecords(t.log)
    && (LogOk(t.log) ==> LogOk(t'.log))
  }

  lemma {:induction false} TakeAllOk(t: State, group: seq<Record>)
    ensures TookGroup(t, TakeAll(t, group), group)
    decreases |group|
  {
    if |group| > 0 {
      var t1 := t.Noting(Took(group[0]));
      assert t1.log == Then(t.log, Took(group[0]));
      TookOne(t, group[0]);
      TakeAllOk(t1, group[1..]);
      hide C.Taken, C.Unaccounted, C.HandedRecords, LogOk;
      assert forall x <- group :: x == group[0] || x in group[1..];
    }
  }

  lemma TookOne(t: State, x: Record)
    ensures TookGroup(t, t.Noting(Took(x)), [x])
  {
    assert t.Noting(Took(x)).log == Then(t.log, Took(x));
  }

  lemma TookFine(t: State, t': State, group: seq<Record>)
    requires Calm(t) && TookGroup(t, t', group)
    ensures Calm(t')
  {
    hide C.Taken, C.Unaccounted, C.HandedRecords, LogOk;
  }

  lemma BytesConcat(a: seq<Record>, b: seq<Record>)
    ensures RuntimeBytes.RecordBytes(a + b) == RuntimeBytes.RecordBytes(a) + RuntimeBytes.RecordBytes(b)
    decreases |b|
  {
    if |b| == 0 {
      assert a + b == a;
    } else {
      assert a + b == (a + b[..|b| - 1]) + [b[|b| - 1]];
      RuntimeBytes.BytesPushed(a + b[..|b| - 1], b[|b| - 1]);
      BytesConcat(a, b[..|b| - 1]);
    }
  }

  lemma FlushableConcat(k: Key, a: seq<Record>, b: seq<Record>, t: State)
    requires Flushable(k, a, t) && Flushable(k, b, t) && forall x <- b :: x !in a
    ensures Flushable(k, a + b, t)
  {
    hide C.Taken, C.HandedRecords;
    forall i, j | 0 <= i < j < |a + b|
      ensures (a + b)[i] != (a + b)[j]
    {
      if i < |a| <= j {
        assert (a + b)[j] == b[j - |a|] && b[j - |a|] in b && (a + b)[i] == a[i];
      }
    }
  }

  /** A fresh group, once taken in, can be flushed with its window's other records. */
  lemma GroupFlushable(t: State, t': State, k: Key, records: seq<Record>, group: seq<Record>, low: nat, high: nat)
    requires TransportFine(t) && TookGroup(t, t', group) && GroupFresh(group, k, low, high) && low <= high
    requires Flushable(k, records, t) && SerialsBelow(t, k, low)
    ensures Flushable(k, records, t') && Flushable(k, group, t') && forall x <- group :: x !in records
    ensures SerialsBelow(t', k, high)
  {
    hide C.Taken, C.HandedRecords, C.Unaccounted, LogOk, StateOk;
  }

  /** Only records of `k` were taken in between. */
  ghost predicate TakesOnlyOf(t: State, t': State, k: Key) {
    forall x <- C.Taken(t'.log) :: x in C.Taken(t.log) || x.key == k
  }

  lemma AppendOk(t: State, a: Active, reduced: seq<PiRecord>, world: World, low: nat)
    requires Calm(t) && WorldOk(world) && OwedIn(t, a.records, [])
    requires var k := KeyOf(a.reducer.coordinates);
             Flushable(k, a.records, t) && a.bytes == RuntimeBytes.RecordBytes(a.records) && SerialsBelow(t, k, low)
    requires PiGrammar.WindowOk(a.reducer) && Ascending(reduced, low, a.reducer.nextEventID)
    ensures var (t', a') := Append(t, a, reduced, world);
            && Calm(t') && ActiveOk(a', t') && OwedIn(t', a'.records, []) && a'.reducer == a.reducer
            && TakesOnlyOf(t, t', KeyOf(a.reducer.coordinates))
  {
    hide PiGrammar.WindowOk, Calm, Flush, TakeAll, Group, LogOk, StateOk, Distinct, C.Taken, C.HandedRecords, C.Unaccounted, Ascending, RuntimeBytes.RecordBytes;
    var k := KeyOf(a.reducer.coordinates);
    var group := Group(k, reduced, world);
    var taken := TakeAll(t, group);
    GroupIsFresh(k, reduced, world, low, a.reducer.nextEventID);
    TakeAllOk(t, group);
    TookFine(t, taken, group);
    CalmFine(t);
    AscendingBounds(reduced, low, a.reducer.nextEventID);
    GroupFlushable(t, taken, k, a.records, group, low, a.reducer.nextEventID);
    if |a.records| > 0 && a.bytes + RuntimeBytes.RecordBytes(group) > MAX_SESSION_BUFFER_BYTES {
      FlushOne(taken, a, false, world, group);
      assert [] + group == group;
      NothingFlushable(k, Flush(taken, a, false, world).0);
    } else {
      FlushableConcat(k, a.records, group, taken);
      BytesConcat(a.records, group);
      assert forall x <- group :: x in a.records + group;
      assert forall x <- a.records :: x in a.records + group;
    }
  }

  lemma NothingFlushable(k: Key, t: State)
    ensures Flushable(k, [], t) && RuntimeBytes.RecordBytes([]) == 0
  {
  }

  lemma CalmFine(t: State)
    requires Calm(t)
    ensures TransportFine(t)
  {
  }

  lemma AscendingBounds(reduced: seq<PiRecord>, low: nat, high: nat)
    requires Ascending(reduced, low, high)
    ensures low <= high
  {
  }

  /** What the reducer emits in one step is numbered on from where it was. */
  lemma OutputAscending(w: P.Window, step: P.Step)
    requires PiGrammar.WindowOk(w)
    ensures var w' := P.Do(w, step);
            && PiGrammar.WindowOk(w') && w'.coordinates == w.coordinates
            && Ascending(P.Output(w, w'), w.nextEventID, w'.nextEventID)
  {
    hide P.Do, PiGrammar.Paired, PiGrammar.EachCallOnce, PiGrammar.FinishedLast, PiGrammar.QuotaOk, PiGrammar.CallsOk, PiGrammar.EndsFinished;
    PiRuns.StepOk(w, step);
    PiRuns.StepExtends(w, step);
    var w' := P.Do(w, step);
    assert w.emitted <= w'.emitted;
    assert PiGrammar.Numbered(w) && PiGrammar.Numbered(w');
  }

  lemma AdvanceOk(t: State, a: Active, step: P.Step, world: World)
    requires Calm(t) && WorldOk(world) && ActiveOk(a, t) && OwedIn(t, a.records, [])
    ensures var (t', a') := Advance(t, a, step, world);
            && Calm(t') && ActiveOk(a', t') && OwedIn(t', a'.records, []) && a'.reducer == P.Do(a.reducer, step)
            && TakesOnlyOf(t, t', KeyOf(a.reducer.coordinates))
  {
    hide PiGrammar.WindowOk, Calm, Append, Flushable, OwedIn, Ascending, P.Do, P.Output, RuntimeBytes.RecordBytes;
    OutputAscending(a.reducer, step);
    var reducer := P.Do(a.reducer, step);
    AppendOk(t, a.(reducer := reducer), P.Output(a.reducer, reducer), world, a.reducer.nextEventID);
  }

  /** A flush of the active window leaves it empty and in order. */
  lemma FlushWindowOk(t: State, a: Active, force: bool, world: World)
    requires Calm(t) && WorldOk(world) && ActiveOk(a, t) && OwedIn(t, a.records, [])
    ensures var (t', a') := Flush(t, a, force, world);
            && Calm(t') && ActiveOk(a', t') && a' == a.(records := [], bytes := 0) && OwedIn(t', [], [])
            && C.Taken(t'.log) == C.Taken(t.log)
  {
    hide PiGrammar.WindowOk, Calm, Flush, C.Taken, RuntimeBytes.RecordBytes, OwedIn, Flushable;
    NothingFlushable(KeyOf(a.reducer.coordinates), t);
    FlushOne(t, a, force, world, []);
    NothingFlushable(KeyOf(a.reducer.coordinates), Flush(t, a, force, world).0);
  }

  // ----- the callbacks -----

  /** A generated discriminator is new: neither of the active window nor of any window that took a record in. */
  ghost predicate Enabled(e: Extension, step: Step) {
    step.SessionStart? && step.input.Begins? && step.input.discriminator.Some? ==>
      Unused(e, KeyOf(P.Coordinates(step.input.sessionID, step.input.discriminator.value)))
  }

  ghost predicate Unused(e: Extension, k: Key) {
    && (forall x <- C.Taken(e.transport.log) :: x.key != k)
    && (e.active.Some? ==> KeyOf(e.active.value.reducer.coordinates) != k)
  }

  lemma DegradeAndFlushOk(e: Extension, reason: P.Reason, world: World)
    requires ExtensionOk(e) && WorldOk(world)
    ensures var e' := DegradeAndFlush(e, reason, world);
            && ExtensionOk(e') && (e'.active.Some? <==> e.active.Some?)
            && (e.active.Some? ==> e'.active.value.reducer == P.Do(e.active.value.reducer, P.DoDegrade(reason)))
            && (e'.active.Some? ==> e'.active.value.records == [] && e'.active.value.bytes == 0)
            && (forall k :: Unused(e, k) ==> forall x <- C.Taken(e'.transport.log) :: x.key != k)
  {
    hide Calm, ActiveOk, OwedIn, Advance, Flush, P.Do, C.Taken;
    if e.active.Some? {
      AdvanceOk(e.transport, e.active.value, P.DoDegrade(reason), world);
      var (t, a) := Advance(e.transport, e.active.value, P.DoDegrade(reason), world);
      FlushWindowOk(t, a, false, world);
    }
  }

  lemma StartSessionOk(e: Extension, input: StartInput, world: World)
    requires ExtensionOk(e) && WorldOk(world) && Enabled(e, SessionStart(input))
    ensures var e' := StartSession(e, input, world);
            && ExtensionOk(e')
            && (input.Begins? ==>
                  if input.discriminator.None? then e'.active.None?
                  else e'.active == Some(Active(P.Initial(P.Coordinates(input.sessionID, input.discriminator.value)), [], 0)))
  {
    hide Calm, ActiveOk, Advance, DegradeAndFlush, Flush, C.Unaccounted, C.Taken, P.Initial, Unused;
    DegradeAndFlushOk(e, P.MissingField, world);
    DegradeAndFlushOk(e, P.InvalidTransition, world);
    if input.Begins? && input.discriminator.Some? {
      var closed := DegradeAndFlush(e, P.InvalidTransition, world);
      var coordinates := P.Coordinates(input.sessionID, input.discriminator.value);
      StartedOk(coordinates, closed.transport);
      FlushWindowOk(closed.transport, Active(P.Initial(coordinates), [], 0), true, world);
    }
  }

  lemma StartedOk(c: P.Coordinates, t: State)
    requires forall x <- C.Taken(t.log) :: x.key != KeyOf(c)
    ensures ActiveOk(Active(P.Initial(c), [], 0), t)
  {
    hide C.Taken, PiGrammar.WindowOk;
    PiRuns.InitialOk(c);
    NothingFlushable(KeyOf(c), t);
  }

  lemma ObserveOk(e: Extension, step: Step, world: World)
    requires ExtensionOk(e) && WorldOk(world) && step.Observed?
    ensures ExtensionOk(Observe(e, step, world))
  {
    hide Calm, ActiveOk, Advance, Flush, P.Do, C.Unaccounted;
    if e.active.Some? {
      var move := if step.matches then P.DoReduce(step.event) else P.DoDegrade(P.MissingField);
      AdvanceOk(e.transport, e.active.value, move, world);
      var (t, a) := Advance(e.transport, e.active.value, move, world);
      FlushWindowOk(t, a, false, world);
    }
  }

  lemma StepOk(e: Extension, step: Step, world: World)
    requires ExtensionOk(e) && WorldOk(world) && Enabled(e, step)
    ensures ExtensionOk(Do(e, step, world))
  {
    hide ExtensionOk, StartSession, Observe, Enabled;
    match step
    case SessionStart(input) => StartSessionOk(e, input, world);
    case Observed(_, _, _, _) => ObserveOk(e, step, world);
  }

  // ----- runs -----

  ghost predicate IsRun(e: Extension, steps: seq<Step>, world: World)
    decreases |steps|
  {
    |steps| > 0 ==> Enabled(e, steps[0]) && IsRun(Do(e, steps[0], world), steps[1..], world)
  }

  ghost function After(e: Extension, steps: seq<Step>, world: World): Extension
    decreases |steps|
  {
    if |steps| == 0 then e else After(Do(e, steps[0], world), steps[1..], world)
  }

  lemma {:induction false} AfterOk(e: Extension, steps: seq<Step>, world: World)
    requires ExtensionOk(e) && WorldOk(world) && IsRun(e, steps, world)
    ensures ExtensionOk(After(e, steps, world))
    decreases |steps|
  {
    hide ExtensionOk, Do, Enabled;
    if |steps| > 0 {
      StepOk(e, steps[0], world);
      AfterOk(Do(e, steps[0], world), steps[1..], world);
    }
  }

  lemma InitialOk()
    ensures ExtensionOk(INITIAL)
  {
  }

  /** In every run: exact bytes, no write in flight between callbacks, the window's stream in order. */
  lemma BytesExact(steps: seq<Step>, world: World)
    requires WorldOk(world) && IsRun(INITIAL, steps, world)
    ensures var e := After(INITIAL, steps, world);
            && e.transport.active == 0
            && (e.active.Some? ==>
                  && e.active.value.bytes == RuntimeBytes.RecordBytes(e.active.value.records)
                  && PiGrammar.WindowOk(e.active.value.reducer))
  {
    hide PiGrammar.WindowOk, Flushable, RuntimeBytes.RecordBytes;
    InitialOk();
    AfterOk(INITIAL, steps, world);
  }

  /**
   * No silent loss: a record that was taken in is still buffered in the active
   * window, or a gap of its window was marked since, or it was part of a fully
   * delivered flush since.
   */
  lemma NoSilentLoss(steps: seq<Step>, world: World, i: nat, x: Record)
    requires WorldOk(world) && IsRun(INITIAL, steps, world)
    requires var notes := RuntimeRuns.Notes(After(INITIAL, steps, world).transport.log); i < |notes| && notes[i] == Took(x)
    ensures var e := After(INITIAL, steps, world);
            || (e.active.Some? && x in e.active.value.records)
            || RuntimeRuns.SettledAfter(RuntimeRuns.Notes(e.transport.log), i, x)
  {
    hide ActiveOk, Calm, RuntimeRuns.SettledAfter, RuntimeRuns.Notes, C.Unaccounted, IsRun, After;
    InitialOk();
    AfterOk(INITIAL, steps, world);
    var h := After(INITIAL, steps, world).transport.log;
    if !RuntimeRuns.SettledAfter(RuntimeRuns.Notes(h), i, x) {
      RuntimeRuns.OutstandingIsUnaccounted(h, i, x);
    }
  }

  /** No record, a `session_finished` in particular, is given to a launcher twice. */
  lemma HandedAtMostOnce(steps: seq<Step>, world: World, i: nat, a: nat, j: nat, b: nat, x: Record)
    requires WorldOk(world) && IsRun(INITIAL, steps, world)
    requires RuntimeRuns.HandedAt(After(INITIAL, steps, world).transport.log, i, a, x)
    requires RuntimeRuns.HandedAt(After(INITIAL, steps, world).transport.log, j, b, x)
    ensures i == j && a == b
  {
    hide ActiveOk, RuntimeRuns.HandedAt, C.DeliveriesConfirmed, C.HandedRecords, C.Taken, IsRun, After;
    InitialOk();
    AfterOk(INITIAL, steps, world);
    var h := After(INITIAL, steps, world).transport.log;
    if i <= j {
      RuntimeRuns.HandedOnceMeans(h, i, a, j, b, x);
    } else {
      RuntimeRuns.HandedOnceMeans(h, j, b, i, a, x);
    }
  }

  /**
   * Every boundary flush empties the buffer, so an accepted shutdown always
   * closes its window: on a serial queue `not_started` cannot occur, and the
   * terminal record is never held back.
   */
  lemma ShutdownCloses(e: Extension, why: string, world: World)
    requires ExtensionOk(e) && WorldOk(world) && e.active.Some?
    ensures Observe(e, Observed(true, P.SessionShutdown(Some(why)), true, true), world).active.None?
  {
    hide Calm, ActiveOk, OwedIn, Advance, Flush, P.Do;
    var move := P.DoReduce(P.SessionShutdown(Some(why)));
    AdvanceOk(e.transport, e.active.value, move, world);
    var (t, a) := Advance(e.transport, e.active.value, move, world);
    FlushWindowOk(t, a, false, world);
    ShutFinished(e.active.value, e.transport, move);
  }

  lemma ShutFinished(a: Active, t: State, move: P.Step)
    requires ActiveOk(a, t) && PiRuns.Shuts(move)
    ensures P.Do(a.reducer, move).finished
  {
    hide PiGrammar.WindowOk;
    PiRuns.StepExtends(a.reducer, move);
  }
}
