/** The batch transports. */
module Transport {
  // Gaps stamped with generations, at most four concurrent chunk writes, and
  // flushes that may interleave at every await.
  //
  // The OpenCode transport drops a gap it has no room for; the windowed transport
  // poisons all windows instead.  That is their only difference here.

  import opened Util
  import opened Contracts
  import CanonicalJson

  const MAX_CONCURRENT_WRITES: nat := 4
  const MAX_PENDING_GAPS: nat := 256

  /** What a batch belongs to: an OpenCode session, or one Pi observation window. */
  datatype Key =
    | Session(sessionID: string)
    | Window(sessionID: string, discriminator: string)

  predicate ValidKey(k: Key) {
    && k.sessionID != "" && CanonicalJson.Utf8Bytes(k.sessionID) <= MAX_CAPTURE_SESSION_ID_BYTES
    && (k.Window? ==> |k.discriminator| == 64 && forall c <- k.discriminator :: '0' <= c <= '9' || 'a' <= c <= 'f')
  }

  /** A reduced record; the serial number tells occurrences of equal records apart. */
  datatype Record = Record(key: Key, serial: nat, bytes: nat, terminal: bool)

  datatype Event = GapNotice(key: Key) | Payload(record: Record)

  /** What an observer outside sees, newest last; a delivery that clears a gap reports that gap. */
  datatype Note =
    | Took(record: Record)
    | Marked(key: Key)
    | Handed(events: seq<Event>)
    | Confirmed(events: seq<Event>)
    | Delivered(records: seq<Record>, reported: Option<Key>)

  datatype History = Start | Then(past: History, note: Note)

  datatype Overflow = Drop | Poison

  datatype State = State(
    overflow: Overflow,
    pending: map<Key, nat>,
    generation: nat,
    poisoned: bool,
    active: nat,
    log: History)
  {
    function Noting(note: Note): State {
      this.(log := Then(log, note))
    }
  }

  datatype FlushResult = AttemptedFailure | FullyDelivered | NotStarted

  /** The locals of one `flush` call between its awaits. */
  datatype Flight = Flight(
    key: Key,
    records: seq<Record>,
    seen: Option<nat>,
    events: seq<Event>,
    chunks: seq<seq<Event>>,
    next: nat,
    started: nat,
    delivered: nat,
    writing: bool)

  datatype Begun = Finished(result: FlushResult) | Flying(flight: Flight)

  // ----- the atomic steps -----

  predicate HasPendingGap(t: State, k: Key) {
    ValidKey(k) && (t.poisoned || k in t.pending)
  }

  function MarkGap(t: State, k: Key): State {
    var noted := t.Noting(Marked(k));
    if !ValidKey(k) then noted
    else if k in t.pending || |t.pending| < MAX_PENDING_GAPS then
      noted.(generation := t.generation + 1, pending := t.pending[k := t.generation + 1])
    else if t.overflow.Poison? then noted.(poisoned := true)
    else noted
  }

  function Payloads(records: seq<Record>): (events: seq<Event>)
    ensures |events| == |records|
    ensures forall i | 0 <= i < |records| :: events[i] == Payload(records[i])
  {
    seq(|records|, i requires 0 <= i < |records| => Payload(records[i]))
  }

  function EventsFor(t: State, k: Key, records: seq<Record>): seq<Event> {
    (if k in t.pending || t.poisoned then [GapNotice(k)] else []) + Payloads(records)
  }

  /** The events of chunk `n` and all later ones. */
  function FlattenFrom(chunks: seq<seq<Event>>, n: nat): seq<Event>
    decreases |chunks| - n
  {
    if n >= |chunks| then [] else chunks[n] + FlattenFrom(chunks, n + 1)
  }

  /** What a successful chunk build returns: the events, in order, in 1 to 1000 chunks. */
  ghost predicate ValidBuild(events: seq<Event>, chunks: seq<seq<Event>>) {
    1 <= |chunks| <= MAX_CAPTURE_BATCH_CHUNKS && FlattenFrom(chunks, 0) == events
  }

  /** `flush` up to its first write; `build` is the outcome of chunking, None when it throws. */
  ghost function Begin(t: State, k: Key, records: seq<Record>, force: bool, build: Option<seq<seq<Event>>>): (State, Begun) {
    if (t.overflow.Poison? && !ValidKey(k)) || (exists r <- records :: r.key != k) then
      (MarkGap(t, k), Finished(AttemptedFailure))
    else if |EventsFor(t, k, records)| == 0 && !force then
      (t, Finished(FullyDelivered))
    else if build.None? then
      (MarkGap(t, k), Finished(AttemptedFailure))
    else
      (t, Flying(Flight(k, records, Get(t.pending, k), EventsFor(t, k, records), build.value, 0, 0, 0, false)))
  }

  /** One chunk asks for a write permit: refused chunks are skipped, granted ones go to the launcher. */
  function StartWrite(t: State, f: Flight): (State, Flight)
    requires f.next < |f.chunks| && !f.writing
  {
    if t.active >= MAX_CONCURRENT_WRITES then (t, f.(next := f.next + 1))
    else (t.Noting(Handed(f.chunks[f.next])).(active := t.active + 1), f.(writing := true))
  }

  /** The launcher's answer, an exception counting as false; the permit is released. */
  function SettleWrite(t: State, f: Flight, ok: bool): (State, Flight)
    requires f.writing && f.next < |f.chunks| && t.active > 0
  {
    var noted := if ok then t.Noting(Confirmed(f.chunks[f.next])) else t;
    (noted.(active := t.active - 1),
     f.(writing := false, next := f.next + 1, started := f.started + 1,
        delivered := f.delivered + if ok then 1 else 0))
  }

  function Finish(t: State, f: Flight): (State, FlushResult)
    requires f.next == |f.chunks| && !f.writing
  {
    if f.started == 0 then (MarkGap(t, f.key), NotStarted)
    else if f.delivered == |f.chunks| then
      if Get(t.pending, f.key) == f.seen then
        (t.Noting(Delivered(f.records, if f.seen.Some? then Some(f.key) else None)).(pending := t.pending - {f.key}),
         FullyDelivered)
      else (t.Noting(Delivered(f.records, None)), FullyDelivered)
    else (MarkGap(t, f.key), AttemptedFailure)
  }

  // ----- invariants -----

  ghost predicate FlightOk(generation: nat, f: Flight) {
    && ValidBuild(f.events, f.chunks)
    && f.delivered <= f.started <= f.next <= |f.chunks|
    && (f.writing ==> f.next < |f.chunks|)
    && (f.seen.Some? ==> f.seen.value <= generation && |f.events| > 0 && f.events[0] == GapNotice(f.key))
  }

  ghost predicate StateOk(t: State) {
    && |t.pending| <= MAX_PENDING_GAPS
    && (forall k <- t.pending :: ValidKey(k) && t.pending[k] <= t.generation)
    && (t.poisoned ==> t.overflow.Poison?)
  }

  // ----- each atomic step keeps what it touches in order -----

  lemma MarkOk(t: State, k: Key)
    requires StateOk(t)
    ensures var t' := MarkGap(t, k);
            StateOk(t') && t'.generation >= t.generation && t'.active == t.active && t'.overflow == t.overflow
  {
  }

  lemma BeginOk(t: State, k: Key, records: seq<Record>, force: bool, build: Option<seq<seq<Event>>>)
    requires StateOk(t)
    requires build.Some? ==> ValidBuild(EventsFor(t, k, records), build.value)
    ensures var (t', begun) := Begin(t, k, records, force, build);
            && StateOk(t') && t'.generation >= t.generation && t'.active == t.active && t'.overflow == t.overflow
            && (begun.Flying? ==> FlightOk(t'.generation, begun.flight) && !begun.flight.writing)
  {
    MarkOk(t, k);
  }

  lemma StartWriteOk(t: State, f: Flight)
    requires StateOk(t) && FlightOk(t.generation, f) && f.next < |f.chunks| && !f.writing
    ensures var (t', f') := StartWrite(t, f);
            && StateOk(t') && t'.generation == t.generation && t'.overflow == t.overflow && FlightOk(t'.generation, f')
            && t'.active == t.active + (if f'.writing then 1 else 0)
            && (f'.writing <==> t.active < MAX_CONCURRENT_WRITES)
  {
  }

  lemma SettleWriteOk(t: State, f: Flight, ok: bool)
    requires StateOk(t) && FlightOk(t.generation, f) && f.writing && t.active > 0
    ensures var (t', f') := SettleWrite(t, f, ok);
            && StateOk(t') && t'.generation == t.generation && t'.overflow == t.overflow && FlightOk(t'.generation, f')
            && t'.active + 1 == t.active && !f'.writing
  {
  }

  lemma FinishOk(t: State, f: Flight)
    requires StateOk(t) && f.next == |f.chunks| && !f.writing
    ensures var t' := Finish(t, f).0;
            StateOk(t') && t'.generation >= t.generation && t'.active == t.active && t'.overflow == t.overflow
  {
    MarkOk(t, f.key);
  }

  ghost predicate PendingSince(t: State, k: Key, g: nat) {
    k in t.pending && t.pending[k] >= g
  }

  lemma MarkKeepsPending(t: State, marked: Key, k: Key, g: nat)
    requires StateOk(t) && PendingSince(t, k, g)
    ensures PendingSince(MarkGap(t, marked), k, g)
  {
  }

  /** No stale flush: finishing a flush that read anything but the current stamp clears nothing. */
  lemma StaleFlushClearsNothing(t: State, f: Flight, k: Key)
    requires f.next == |f.chunks| && !f.writing
    requires k in t.pending && (k == f.key ==> f.seen != Some(t.pending[k]))
    ensures k in Finish(t, f).0.pending && Finish(t, f).0.pending[k] >= t.pending[k]
    requires t.pending[k] <= t.generation
  {
  }

  /** A pending gap is cleared exactly by a full delivery of a flush that read its current stamp. */
  lemma ClearedIff(t: State, f: Flight)
    requires f.next == |f.chunks| && !f.writing && f.key in t.pending
    ensures f.key !in Finish(t, f).0.pending
       <==> f.started > 0 && f.delivered == |f.chunks| && f.seen == Some(t.pending[f.key])
  {
  }

  lemma FinishKeepsPending(t: State, f: Flight, k: Key, g: nat)
    requires StateOk(t) && PendingSince(t, k, g) && f.next == |f.chunks| && !f.writing
    ensures || PendingSince(Finish(t, f).0, k, g)
            || (f.key == k && f.started > 0 && f.delivered == |f.chunks| && f.seen == Some(t.pending[k]))
  {
    MarkKeepsPending(t, f.key, k, g);
    if k != f.key || f.seen != Some(t.pending[k]) {
      StaleFlushClearsNothing(t, f, k);
    } else {
      ClearedIff(t, f);
    }
    hide MarkGap, StateOk;
  }

  /** A flush that flies carries every record in order, and the gap notice exactly when a gap is pending. */
  lemma GapCarriedIffPending(t: State, k: Key, records: seq<Record>, force: bool, build: Option<seq<seq<Event>>>)
    ensures var begun := Begin(t, k, records, force, build).1;
            begun.Flying? ==>
              var events := begun.flight.events;
              && (GapNotice(k) in events <==> k in t.pending || t.poisoned)
              && |events| >= |records| && events[|events| - |records|..] == Payloads(records)
              && |events| <= |records| + 1
  {
    var gap := if k in t.pending || t.poisoned then [GapNotice(k)] else [];
    var events := EventsFor(t, k, records);
    assert |gap| > 0 ==> events[0] == GapNotice(k);
    assert forall i | 0 <= i < |Payloads(records)| :: Payloads(records)[i] == Payload(records[i]);
    assert events[|gap|..] == Payloads(records);
  }

  // ----- what each step answers -----

  /** A mark is noted; it is remembered under a new stamp if there is room for it, and only a windowed transport without room is poisoned. */
  lemma MarkAnswers(t: State, k: Key)
    requires StateOk(t)
    ensures var t', room := MarkGap(t, k), ValidKey(k) && (k in t.pending || |t.pending| < 256);
            && t'.log == Then(t.log, Marked(k)) && t'.active == t.active
            && (forall j | j != k :: Get(t'.pending, j) == Get(t.pending, j))
            && (room ==> k in t'.pending && t'.pending[k] == t'.generation == t.generation + 1)
            && (!room ==> t'.pending == t.pending && t'.generation == t.generation)
            && (t'.poisoned <==> t.poisoned || (t.overflow.Poison? && ValidKey(k) && !room))
  {
  }

  /** A flush flies exactly when its records are its own, there is something to send or it is forced, and its chunks can be built. */
  lemma BeginAnswers(t: State, k: Key, records: seq<Record>, force: bool, build: Option<seq<seq<Event>>>)
    ensures var (t', begun) := Begin(t, k, records, force, build);
            var own := (t.overflow.Poison? ==> ValidKey(k)) && forall x <- records :: x.key == k;
            var something := |records| > 0 || k in t.pending || t.poisoned;
            && (begun.Flying? <==> own && (something || force) && build.Some?)
            && (begun == Finished(FullyDelivered) <==> own && !something && !force)
            && (begun.Flying? || begun == Finished(FullyDelivered) ==> t' == t)
            && (begun.Finished? && begun != Finished(FullyDelivered) ==> begun == Finished(AttemptedFailure) && t' == MarkGap(t, k))
            && (begun.Flying? ==> begun.flight.chunks == build.value && begun.flight.records == records && begun.flight.key == k
                                  && begun.flight.seen == Get(t.pending, k) && begun.flight.next == 0)
  {
    hide MarkGap, ValidKey;
  }

  /** A flush all of whose chunks were confirmed is delivered and marks nothing; one that handed nothing over was not started. */
  lemma FinishAnswers(t: State, f: Flight)
    requires f.next == |f.chunks| && !f.writing
    ensures var (t', result) := Finish(t, f);
            && (result.FullyDelivered? <==> f.started > 0 && f.delivered == |f.chunks|)
            && (result.NotStarted? <==> f.started == 0)
            && (result.FullyDelivered? ==>
                  && t'.log.Then? && t'.log.past == t.log && t'.log.note.Delivered? && t'.log.note.records == f.records
                  && (f.key in t'.pending ==> Some(t'.pending[f.key]) != f.seen)
                  && (forall j | j != f.key :: Get(t'.pending, j) == Get(t.pending, j)) && t'.poisoned == t.poisoned)
            && (!result.FullyDelivered? ==> t' == MarkGap(t, f.key))
  {
    hide MarkGap;
  }

  // ----- what the bound on pending gaps costs -----

  /** The OpenCode transport remembers a mark exactly when the session already has one or there is room. */
  lemma MarkRememberedIff(t: State, k: Key)
    requires t.overflow.Drop? && StateOk(t) && ValidKey(k)
    ensures HasPendingGap(MarkGap(t, k), k) <==> k in t.pending || |t.pending| < MAX_PENDING_GAPS
  {
  }

  /** The windowed transport remembers every valid mark. */
  lemma WindowedMarkRemembered(t: State, k: Key)
    requires t.overflow.Poison? && ValidKey(k)
    ensures HasPendingGap(MarkGap(t, k), k)
  {
  }
}
