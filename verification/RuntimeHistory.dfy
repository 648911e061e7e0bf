/**
 * What a run of the plugin runtime does with the records it takes in: none is
 * lost without a gap mark, and none is given to a launcher twice.
 */
module RuntimeHistory {
  import opened Util
  import opened Transport
  import opened CaptureRuntime

  ghost predicate Distinct(records: seq<Record>) {
    forall i, j | 0 <= i < j < |records| :: records[i] != records[j]
  }

  /** The records of chunk `n` and all later ones. */
  function RecordsFrom(chunks: seq<seq<Event>>, n: nat): set<Record>
    decreases |chunks| - n
  {
    if n >= |chunks| then {} else RecordsIn(chunks[n]) + RecordsFrom(chunks, n + 1)
  }

  /** The records of a flush that no launcher has been given and that may still be handed over or restored. */
  function Unsent(f: Flush): set<Record> {
    match f.stage
    case Queued => set x <- f.records
    case Writing(flight) =>
      if flight.started == 0 && !flight.writing then set x <- f.records
      else RecordsFrom(flight.chunks, if flight.writing then flight.next + 1 else flight.next)
    case Settled(result) => if result.NotStarted? then set x <- f.records else {}
  }

  ghost predicate Belongs(record: Record, k: Key, h: History) {
    record.key == k && record in Taken(h)
  }

  ghost predicate BufferOk(k: Key, b: Buffer, h: History) {
    && Distinct(b.records)
    && (forall x <- b.records :: Belongs(x, k, h) && x !in HandedRecords(h))
  }

  ghost predicate FlightFits(k: Key, f: Flush, flight: Flight, generation: nat) {
    && flight.key == k && flight.records == f.records
    && FlightOk(generation, flight)
    && RecordsIn(flight.events) == (set x <- f.records)
    && DistinctPayloads(flight.events)
  }

  /** While every chunk so far was confirmed, what is not confirmed is still to come. */
  ghost predicate ConfirmedSoFar(f: Flush, flight: Flight, h: History) {
    flight.delivered == flight.next ==>
      (set x <- f.records) <= ConfirmedRecords(h) + RecordsFrom(flight.chunks, flight.next)
  }

  ghost predicate FlushOk(k: Key, f: Flush, t: State) {
    && Distinct(f.records)
    && (forall x <- f.records :: Belongs(x, k, t.log))
    && Unsent(f) !! HandedRecords(t.log)
    && (f.stage.Writing? ==>
          FlightFits(k, f, f.stage.flight, t.generation) && ConfirmedSoFar(f, f.stage.flight, t.log))
    && (f.stage.Settled? ==> forall x <- f.records :: x !in Unaccounted(t.log))
  }

  ghost predicate Apart(b: Buffer, f: Flush) {
    forall x <- b.records :: x !in f.records
  }

  predicate InWrite(f: Flush) {
    f.stage.Writing? && f.stage.flight.writing
  }

  function WritingKeys(inFlight: map<Key, Flush>): set<Key> {
    set k | k in inFlight && InWrite(inFlight[k])
  }

  ghost predicate LogOk(h: History) {
    HandedOnce(h) && DeliveriesConfirmed(h)
  }

  ghost predicate TransportOk(r: Runtime) {
    && StateOk(r.transport) && LogOk(r.transport.log)
    && HandedRecords(r.transport.log) <= Taken(r.transport.log)
    && r.transport.active == |WritingKeys(r.inFlight)| <= MAX_CONCURRENT_WRITES
  }

  ghost predicate TablesOk(r: Runtime) {
    && (forall k <- r.buffers :: BufferOk(k, r.buffers[k], r.transport.log))
    && (forall k <- r.inFlight :: FlushOk(k, r.inFlight[k], r.transport))
    && (forall k | k in r.buffers && k in r.inFlight :: Apart(r.buffers[k], r.inFlight[k]))
  }

  ghost predicate HeldBy(r: Runtime, x: Record) {
    || (x.key in r.buffers && x in r.buffers[x.key].records)
    || (x.key in r.inFlight && x in r.inFlight[x.key].records)
  }

  /** Every unaccounted record is held, except possibly one record and the records of one session. */
  ghost predicate HeldBut(r: Runtime, record: Option<Record>, k: Option<Key>) {
    forall x <- Unaccounted(r.transport.log) :: Some(x) != record && Some(x.key) != k ==> HeldBy(r, x)
  }

  ghost predicate CoreOk(r: Runtime) {
    TransportOk(r) && TablesOk(r)
  }

  ghost predicate HistoryOk(r: Runtime) {
    CoreOk(r) && HeldBut(r, None, None)
  }

  // ----- facts about chunks -----

  lemma RecordsInConcat(a: seq<Event>, b: seq<Event>)
    ensures RecordsIn(a + b) == RecordsIn(a) + RecordsIn(b)
  {
    forall x
      ensures x in RecordsIn(a + b) <==> x in RecordsIn(a) + RecordsIn(b)
    {
      assert Payload(x) in a + b <==> Payload(x) in a || Payload(x) in b;
      assert forall events :: x in RecordsIn(events) <==> Payload(x) in events;
    }
  }

  lemma DistinctConcat(a: seq<Event>, b: seq<Event>)
    requires DistinctPayloads(a + b)
    ensures DistinctPayloads(a) && DistinctPayloads(b) && RecordsIn(a) !! RecordsIn(b)
  {
    var ab := a + b;
    forall i, j | 0 <= i < j < |a|
      ensures a[i] == a[j] ==> a[i].GapNotice?
    {
      assert ab[i] == a[i] && ab[j] == a[j];
    }
    forall i, j | 0 <= i < j < |b|
      ensures b[i] == b[j] ==> b[i].GapNotice?
    {
      assert ab[|a| + i] == b[i] && ab[|a| + j] == b[j];
    }
    forall i, j | 0 <= i < |a| && 0 <= j < |b|
      ensures a[i] == b[j] ==> a[i].GapNotice?
    {
      assert ab[i] == a[i] && ab[|a| + j] == b[j];
    }
  }

  /** Later chunks share no record with an earlier one. */
  lemma {:induction false} ChunksApart(chunks: seq<seq<Event>>, n: nat)
    requires n < |chunks| && DistinctPayloads(FlattenFrom(chunks, n))
    ensures RecordsIn(chunks[n]) !! RecordsFrom(chunks, n + 1)
    ensures DistinctPayloads(chunks[n]) && DistinctPayloads(FlattenFrom(chunks, n + 1))
  {
    DistinctConcat(chunks[n], FlattenFrom(chunks, n + 1));
    RecordsFromFlatten(chunks, n + 1);
  }

  lemma {:induction false} RecordsFromFlatten(chunks: seq<seq<Event>>, n: nat)
    ensures RecordsFrom(chunks, n) == RecordsIn(FlattenFrom(chunks, n))
    decreases |chunks| - n
  {
    if n < |chunks| {
      RecordsFromFlatten(chunks, n + 1);
      RecordsInConcat(chunks[n], FlattenFrom(chunks, n + 1));
    }
  }

  lemma LaterRecords(chunks: seq<seq<Event>>, n: nat)
    requires 0 < n <= |chunks|
    ensures RecordsFrom(chunks, n) <= RecordsFrom(chunks, n - 1)
  {
    hide RecordsIn;
  }

  lemma {:induction false} LaterDistinct(chunks: seq<seq<Event>>, n: nat)
    requires DistinctPayloads(FlattenFrom(chunks, 0)) && n <= |chunks|
    ensures DistinctPayloads(FlattenFrom(chunks, n))
    ensures RecordsFrom(chunks, n) <= RecordsFrom(chunks, 0)
  {
    hide DistinctPayloads, FlattenFrom, RecordsFrom;
    if n > 0 {
      LaterDistinct(chunks, n - 1);
      ChunksApart(chunks, n - 1);
      LaterRecords(chunks, n);
    }
  }

  /** The chunk about to be handed over: part of what is unsent, apart from what stays unsent. */
  lemma NextChunk(k: Key, f: Flush, flight: Flight, generation: nat)
    requires f.stage == Writing(flight) && FlightFits(k, f, flight, generation)
    requires flight.next < |flight.chunks| && !flight.writing
    ensures var chunk := flight.chunks[flight.next];
            && RecordsIn(chunk) <= Unsent(f) && RecordsIn(chunk) <= (set x <- f.records)
            && DistinctPayloads(chunk)
            && RecordsFrom(flight.chunks, flight.next + 1) <= Unsent(f)
            && RecordsIn(chunk) !! RecordsFrom(flight.chunks, flight.next + 1)
  {
    LaterDistinct(flight.chunks, flight.next);
    ChunksApart(flight.chunks, flight.next);
    RecordsFromFlatten(flight.chunks, 0);
  }

  lemma PayloadsDistinct(records: seq<Record>, gap: seq<Event>)
    requires Distinct(records) && |gap| <= 1 && (forall e <- gap :: e.GapNotice?)
    ensures RecordsIn(gap + Payloads(records)) == (set x <- records)
    ensures DistinctPayloads(gap + Payloads(records))
  {
    var events := gap + Payloads(records);
    forall j | 0 <= j < |events|
      ensures if j < |gap| then events[j].GapNotice? else events[j] == Payload(records[j - |gap|])
    {
      assert j < |gap| ==> events[j] == gap[j] && gap[j] in gap;
    }
    forall x
      ensures x in RecordsIn(events) <==> x in records
    {
      if x in records {
        var i :| 0 <= i < |records| && records[i] == x;
        assert events[|gap| + i] == Payload(x);
      }
    }
  }
}
