/** The ledger pass of the algorithm-artifact validator, and what an accepted ledger pins down. */
module LedgerValidation {
  import opened Util
  import opened LedgerLayout

  // ----- what the pass accepts -----

  ghost predicate HeadSealed(a: Artifact) {
    && Genuine(a.head.chainTag) && Genuine(a.head.projectionTag) && Genuine(a.head.headTag)
    && PreviousTag(a.entries, |a.entries|) == Some(a.head.chainTag)
    && a.head.headTag == OfHead(a.head.run, a.head.entryCount, a.head.chainTag, a.head.projectionTag)
  }

  ghost predicate Unambiguous(a: Artifact) {
    && DistinctKeys(a.cycles, (c: Cycle) => c.boundary)
    && DistinctKeys(a.deliveries, (d: Delivery) => d.cycleID)
    && DistinctKeys(a.outcomes, (o: Outcome) => o.interventionID)
    && DistinctKeys(CompleteList(a), (c: Complete) => c.key)
  }

  function CompleteKeys(entries: seq<Entry>): set<Key> {
    set e <- entries | e.kind == DecisionKind || e.kind == OutcomeKind :: e.key
  }

  /** Each event's record is bound to its own entry, and each window to the entry of its boundary. */
  ghost predicate BindingsOk(a: Artifact)
    requires ComponentsOk(a) && LayoutMatches(a)
  {
    && (forall k | 0 <= k < |a.records| :: Bound(a.records[k], TraceEntry(a, k)))
    && (forall w <- a.windows :: BoundTo(w, TraceEntry(a, w.boundary - 1)))
  }

  predicate BoundTo(w: WindowBinding, entry: Entry) {
    entry.position == w.position && entry.chainTag == w.chainTag
  }

  ghost function TraceEntry(a: Artifact, k: nat): Entry
    requires ComponentsOk(a) && LayoutMatches(a) && k < |a.records|
  {
    TraceSlotAt(a, k);
    a.entries[Offset(a, k)]
  }

  ghost predicate LedgerAccepted(a: Artifact)
    requires ComponentsOk(a)
  {
    && (forall e <- a.entries :: Genuine(e.recordTag)) && Chained(a.run, a.entries) && HeadSealed(a)
    && Unambiguous(a)
    && LayoutMatches(a)
    && CompleteKeys(a.entries) == CompleteRecords(a).Keys
    && BindingsOk(a)
  }

  // ----- trace entries, by filter and by position -----

  function TraceEntries(entries: seq<Entry>): seq<Entry> {
    if |entries| == 0 then []
    else
      var front, last := entries[..|entries| - 1], entries[|entries| - 1];
      if last.kind == TraceEventKind then TraceEntries(front) + [last] else TraceEntries(front)
  }

  lemma {:induction false} TraceEntriesConcat(x: seq<Entry>, y: seq<Entry>)
    ensures TraceEntries(x + y) == TraceEntries(x) + TraceEntries(y)
    decreases |y|
  {
    if |y| == 0 {
      assert x + y == x;
    } else {
      assert (x + y)[..|x + y| - 1] == x + y[..|y| - 1];
      TraceEntriesConcat(x, y[..|y| - 1]);
    }
  }

  lemma {:induction false} NoTraceEntries(entries: seq<Entry>)
    requires forall i | 0 <= i < |entries| :: entries[i].kind != TraceEventKind
    ensures TraceEntries(entries) == []
  {
    if |entries| > 0 {
      NoTraceEntries(entries[..|entries| - 1]);
    }
  }

  /** The entries of one block: one trace entry, and it comes first. */
  lemma BlockTraces(a: Artifact, k: nat)
    requires ComponentsOk(a) && LayoutMatches(a) && k < |a.records|
    ensures Offset(a, k + 1) <= |a.entries|
    ensures TraceEntries(a.entries[Offset(a, k)..Offset(a, k + 1)]) == [TraceEntry(a, k)]
  {
    hide LayoutUpTo, Block, EntryMatches, TraceEntries;
    var from, to := Offset(a, k), Offset(a, k + 1);
    BlockKinds(a, k);
    var block := a.entries[from..to];
    var rest := a.entries[from + 1..to];
    assert block == [a.entries[from]] + rest;
    assert forall i | 0 <= i < |rest| :: rest[i] == a.entries[from + 1 + i];
    NoTraceEntries(rest);
    TraceEntriesConcat([a.entries[from]], rest);
    OneTrace(a.entries[from]);
  }

  lemma OneTrace(e: Entry)
    requires e.kind == TraceEventKind
    ensures TraceEntries([e]) == [e]
  {
  }

  lemma BlockKinds(a: Artifact, k: nat)
    requires ComponentsOk(a) && LayoutMatches(a) && k < |a.records|
    ensures Offset(a, k) < Offset(a, k + 1) <= |a.entries|
    ensures a.entries[Offset(a, k)].kind == TraceEventKind
    ensures forall i | Offset(a, k) < i < Offset(a, k + 1) :: a.entries[i].kind != TraceEventKind
  {
    hide EntryMatches, Block, HasCycle;
    OutcomesUpTo(a, k + 1);
    BlockShape(a, k);
    BlockInLayout(a, k);
    forall i | Offset(a, k) <= i < Offset(a, k + 1)
      ensures a.entries[i].kind == Block(a, k)[i - Offset(a, k)].kind
    {
      KindMatches(a, i);
    }
  }

  lemma OutcomesUpTo(a: Artifact, n: nat)
    requires n <= |a.records| && OutcomesPresent(a, |a.records|)
    ensures OutcomesPresent(a, n)
  {
  }

  lemma KindMatches(a: Artifact, i: nat)
    requires ComponentsOk(a) && LayoutMatches(a) && i < |a.entries|
    ensures a.entries[i].kind == LayoutUpTo(a, |a.records|)[i].kind
  {
    hide LayoutUpTo, OutcomesPresent;
    assert EntryMatches(a, a.entries[i], LayoutUpTo(a, |a.records|)[i]);
  }

  lemma BlockInLayout(a: Artifact, k: nat)
    requires k < |a.records| == |a.decisions| && OutcomesPresent(a, |a.records|)
    ensures OutcomesPresent(a, k + 1) && Offset(a, k + 1) == Offset(a, k) + |Block(a, k)| <= |LayoutUpTo(a, |a.records|)|
    ensures forall i | Offset(a, k) <= i < Offset(a, k + 1) :: LayoutUpTo(a, |a.records|)[i] == Block(a, k)[i - Offset(a, k)]
  {
    LayoutExtends(a, k + 1, |a.records|);
    OffsetIsLength(a, k);
    OffsetIsLength(a, k + 1);
  }

  lemma BlockShape(a: Artifact, k: nat)
    requires k < |a.records| == |a.decisions| && OutcomesPresent(a, k + 1)
    ensures |Block(a, k)| > 0 && Block(a, k)[0].kind == TraceEventKind
    ensures forall j | 0 < j < |Block(a, k)| :: Block(a, k)[j].kind != TraceEventKind
  {
  }

  lemma {:induction false} TraceEntriesUpTo(a: Artifact, n: nat)
    requires ComponentsOk(a) && LayoutMatches(a) && n <= |a.records|
    ensures Offset(a, n) <= |a.entries| && |TraceEntries(a.entries[..Offset(a, n)])| == n
    ensures forall k | 0 <= k < n :: TraceEntries(a.entries[..Offset(a, n)])[k] == TraceEntry(a, k)
  {
    hide TraceEntries, LayoutMatches, ComponentsOk;
    if n == 0 {
      NoTraceEntries(a.entries[..0]);
    } else {
      TraceEntriesUpTo(a, n - 1);
      BlockTraces(a, n - 1);
      JoinSlices(a.entries, Offset(a, n - 1), Offset(a, n));
      TraceEntriesConcat(a.entries[..Offset(a, n - 1)], a.entries[Offset(a, n - 1)..Offset(a, n)]);
    }
  }

  /** Filtering by type finds the entry of event `k` at its position. */
  lemma TraceEntriesAre(a: Artifact)
    requires ComponentsOk(a) && LayoutMatches(a)
    ensures |TraceEntries(a.entries)| == |a.records|
    ensures forall k | 0 <= k < |a.records| :: TraceEntries(a.entries)[k] == TraceEntry(a, k)
  {
    OffsetIsLength(a, |a.records|);
    TraceEntriesUpTo(a, |a.records|);
    WholeSlice(a.entries);
  }

  // ----- the pass -----

  /** What the loop checks of an entry, given the tag before it. */
  predicate Sealed(run: string, e: Entry, previous: Option<Tag>) {
    && Genuine(e.recordTag) && Genuine(e.chainTag) && e.previous == previous
    && e.chainTag == OfChain(run, e.position, e.key, e.recordTag, e.previous)
  }

  method ChainVerifies(run: string, entries: seq<Entry>) returns (ok: bool)
    ensures ok <==> forall i | 0 <= i < |entries| :: Sealed(run, entries[i], PreviousTag(entries, i))
  {
    hide Sealed;
    var previous: Option<Tag> := None;
    var i := 0;
    while i < |entries|
      invariant 0 <= i <= |entries| && previous == PreviousTag(entries, i)
      invariant forall j | 0 <= j < i :: Sealed(run, entries[j], PreviousTag(entries, j))
    {
      if !Sealed(run, entries[i], previous) {
        return false;
      }
      previous := Some(entries[i].chainTag);
      i := i + 1;
    }
    return true;
  }

  /** The nested loops that append what each event, cycle, delivery and outcome must have left behind. */
  method ExpectedLayout(a: Artifact) returns (layout: Option<seq<Slot>>)
    requires |a.decisions| == |a.records|
    ensures layout.Some? <==> OutcomesPresent(a, |a.records|)
    ensures layout.Some? ==> layout.value == LayoutUpTo(a, |a.records|)
  {
    var expected: seq<Slot> := [];
    var i := 0;
    while i < |a.records|
      invariant i <= |a.records| && OutcomesPresent(a, i) && expected == LayoutUpTo(a, i)
    {
      var block := EventSlots(a, i);
      if HasCycle(a, i) {
        var cycle := CycleAt(a, i);
        if cycle.interventionID !in ByIntervention(a) {
          return None;
        }
        var added := CycleSlots(cycle);
        if cycle.id in ByCycle(a) {
          var delivered := DeliverySlots(ByCycle(a)[cycle.id]);
          added := added + delivered;
        }
        added := added + [OutcomeSlot(ByIntervention(a)[cycle.interventionID])];
        assert added == CycleBlock(a, cycle);
        block := block + added;
      }
      assert block == Block(a, i);
      expected := expected + block;
      i := i + 1;
    }
    return Some(expected);
  }

  method CycleSlots(c: Cycle) returns (slots: seq<Slot>)
    ensures slots == [CycleSlot(c, 1), CycleSlot(c, 2), CycleSlot(c, 3), CycleSlot(c, 4)]
  {
    slots := [];
    for revision := 1 to 5
      invariant |slots| == revision - 1 && forall r | 1 <= r < revision :: slots[r - 1] == CycleSlot(c, r)
    {
      slots := slots + [CycleSlot(c, revision)];
    }
  }

  method DeliverySlots(d: Delivery) returns (slots: seq<Slot>)
    ensures slots == [DeliverySlot(d, 1), DeliverySlot(d, 2), DeliverySlot(d, 3), DeliverySlot(d, 4)]
  {
    slots := [];
    for revision := 1 to 5
      invariant |slots| == revision - 1 && forall r | 1 <= r < revision :: slots[r - 1] == DeliverySlot(d, r)
    {
      slots := slots + [DeliverySlot(d, revision)];
    }
  }

  method EntriesMatch(a: Artifact, expected: seq<Slot>) returns (ok: bool)
    requires |expected| == |a.entries|
    ensures ok <==> forall i | 0 <= i < |a.entries| :: EntryMatches(a, a.entries[i], expected[i])
  {
    var i := 0;
    while i < |a.entries|
      invariant i <= |a.entries| && forall j | 0 <= j < i :: EntryMatches(a, a.entries[j], expected[j])
    {
      if !EntryMatches(a, a.entries[i], expected[i]) {
        return false;
      }
      i := i + 1;
    }
    return true;
  }

  method TraceEntriesOf(entries: seq<Entry>) returns (traces: seq<Entry>)
    ensures traces == TraceEntries(entries)
  {
    traces := [];
    var i := 0;
    while i < |entries|
      invariant i <= |entries| && traces == TraceEntries(entries[..i])
    {
      assert entries[..i + 1][..i] == entries[..i];
      if entries[i].kind == TraceEventKind {
        traces := traces + [entries[i]];
      }
      i := i + 1;
    }
    WholeSlice(entries);
  }

  method RecordsBound(records: seq<Record>, traces: seq<Entry>) returns (ok: bool)
    requires |traces| == |records|
    ensures ok <==> forall k | 0 <= k < |records| :: Bound(records[k], traces[k])
  {
    var k := 0;
    while k < |records|
      invariant k <= |records| && forall j | 0 <= j < k :: Bound(records[j], traces[j])
    {
      if !Bound(records[k], traces[k]) {
        return false;
      }
      k := k + 1;
    }
    return true;
  }

  method WindowsBound(windows: seq<WindowBinding>, traces: seq<Entry>) returns (ok: bool)
    requires forall w <- windows :: 1 <= w.boundary <= |traces|
    ensures ok <==> forall w <- windows :: BoundTo(w, traces[w.boundary - 1])
  {
    var i := 0;
    while i < |windows|
      invariant i <= |windows| && forall j | 0 <= j < i :: BoundTo(windows[j], traces[windows[j].boundary - 1])
    {
      if !BoundTo(windows[i], traces[windows[i].boundary - 1]) {
        assert windows[i] in windows;
        return false;
      }
      i := i + 1;
    }
    return true;
  }

  method BindingsMatch(a: Artifact) returns (ok: bool)
    requires ComponentsOk(a) && LayoutMatches(a)
    ensures ok <==> BindingsOk(a)
  {
    hide LayoutMatches, TraceEntries, Bound, BoundTo, TraceEntry;
    var traces := TraceEntriesOf(a.entries);
    TraceEntriesAre(a);
    ok := RecordsBound(a.records, traces);
    if ok {
      ok := WindowsBound(a.windows, traces);
    }
  }

  method IndexesFull(a: Artifact) returns (ok: bool)
    ensures ok <==> Unambiguous(a)
  {
    FullIndex(a.cycles, (c: Cycle) => c.boundary);
    FullIndex(a.deliveries, (d: Delivery) => d.cycleID);
    FullIndex(a.outcomes, (o: Outcome) => o.interventionID);
    FullIndex(CompleteList(a), (c: Complete) => c.key);
    ok := |BySequence(a)| == |a.cycles| && |ByCycle(a)| == |a.deliveries| && |ByIntervention(a)| == |a.outcomes|
          && |CompleteRecords(a)| == |a.decisions| + |a.outcomes|;
  }

  /** `_validate_ledger` accepts exactly the ledgers that `LedgerAccepted` describes. */
  method ValidateLedger(a: Artifact) returns (ok: bool)
    requires ComponentsOk(a)
    ensures ok <==> LedgerAccepted(a)
  {
    hide LayoutUpTo, OutcomesPresent, EntryMatches, ChainedAt, Unambiguous, BindingsOk, CompleteRecords, DistinctKeys;
    ok := ChainVerifies(a.run, a.entries);
    SealedChain(a.run, a.entries);
    if !ok {
      return;
    }
    ok := Genuine(a.head.chainTag) && Genuine(a.head.projectionTag) && Genuine(a.head.headTag)
          && PreviousTag(a.entries, |a.entries|) == Some(a.head.chainTag)
          && a.head.headTag == OfHead(a.head.run, a.head.entryCount, a.head.chainTag, a.head.projectionTag);
    if !ok {
      return;
    }
    ok := IndexesFull(a);
    if !ok {
      return;
    }
    var layout := ExpectedLayout(a);
    if layout.None? || |layout.value| != |a.entries| || CompleteKeys(a.entries) != CompleteRecords(a).Keys {
      return false;
    }
    ok := EntriesMatch(a, layout.value);
    if !ok {
      return;
    }
    ok := BindingsMatch(a);
  }

  lemma SealedChain(run: string, entries: seq<Entry>)
    ensures (forall i | 0 <= i < |entries| :: Sealed(run, entries[i], PreviousTag(entries, i))) <==>
            (forall e <- entries :: Genuine(e.recordTag)) && Chained(run, entries)
  {
    assert forall i | 0 <= i < |entries| ::
      Sealed(run, entries[i], PreviousTag(entries, i)) <==> Genuine(entries[i].recordTag) && ChainedAt(run, entries, i);
    if (forall e <- entries :: Genuine(e.recordTag)) && Chained(run, entries) {
      assert forall i | 0 <= i < |entries| :: Genuine(entries[i].recordTag);
    }
  }

  // ----- what an accepted ledger pins down -----

  /** A chain tag determines everything before it. */
  lemma {:induction false} ChainDetermines(run: string, x: seq<Entry>, y: seq<Entry>, m: nat, n: nat)
    requires Chained(run, x) && Chained(run, y) && m <= |x| && n <= |y|
    requires PreviousTag(x, m) == PreviousTag(y, n)
    ensures m == n
    ensures forall i | 0 <= i < m ::
      x[i].key == y[i].key && x[i].recordTag == y[i].recordTag && x[i].chainTag == y[i].chainTag && x[i].position == y[i].position
    decreases m
  {
    if m > 0 && n > 0 {
      assert ChainedAt(run, x, m - 1) && ChainedAt(run, y, n - 1);
      ChainDetermines(run, x, y, m - 1, n - 1);
    }
  }

  /**
   * Tamper evidence: two accepted ledgers of one run with the same head chain
   * tag have the same length and agree on every key, record tag and chain tag.
   */
  lemma SameHeadSameLedger(a: Artifact, b: Artifact)
    requires ComponentsOk(a) && LedgerAccepted(a) && ComponentsOk(b) && LedgerAccepted(b)
    requires a.run == b.run && a.head.chainTag == b.head.chainTag
    ensures |a.entries| == |b.entries|
    ensures forall i | 0 <= i < |a.entries| ::
      && a.entries[i].key == b.entries[i].key && a.entries[i].recordTag == b.entries[i].recordTag
      && a.entries[i].chainTag == b.entries[i].chainTag
  {
    hide LayoutMatches, BindingsOk, Unambiguous, CompleteRecords, CompleteKeys;
    ChainDetermines(a.run, a.entries, b.entries, |a.entries|, |b.entries|);
  }

  /** Event `k` is recorded at position 1 plus what the earlier events left behind, and its record says so. */
  lemma EventPosition(a: Artifact, k: nat)
    requires ComponentsOk(a) && LedgerAccepted(a) && k < |a.records|
    ensures a.records[k].position == 1 + Offset(a, k)
    ensures Offset(a, k) < |a.entries| && a.entries[Offset(a, k)].key == TraceEvent(a.records[k].id)
    ensures a.entries[Offset(a, k)].source == a.records[k].digest
  {
    hide Unambiguous, CompleteRecords, CompleteKeys, Chained;
    TraceSlotAt(a, k);
    assert Bound(a.records[k], TraceEntry(a, k));
    assert EntryMatches(a, a.entries[Offset(a, k)], LayoutUpTo(a, |a.records|)[Offset(a, k)]);
  }

  // ----- how long an accepted ledger is -----

  /** The members of `keys` among the first `n` events. */
  function EventsIn(keys: set<nat>, n: nat): set<nat> {
    set k <- keys | 1 <= k <= n
  }

  /** Boundaries of cycles that have a delivery. */
  function DeliveredBoundaries(a: Artifact): set<nat> {
    set k <- BySequence(a) | BySequence(a)[k].id in ByCycle(a)
  }

  lemma EventsStep(keys: set<nat>, n: nat)
    requires n > 0
    ensures |EventsIn(keys, n)| == |EventsIn(keys, n - 1)| + if n in keys then 1 else 0
  {
    assert EventsIn(keys, n) == EventsIn(keys, n - 1) + if n in keys then {n} else {};
  }

  lemma AllEvents(keys: set<nat>, n: nat)
    requires forall k <- keys :: 1 <= k <= n
    ensures EventsIn(keys, n) == keys
  {
  }

  lemma {:induction false} OffsetCounts(a: Artifact, n: nat)
    requires ComponentsOk(a) && n <= |a.records|
    ensures Offset(a, n) == 2 * n + 5 * |EventsIn(BySequence(a).Keys, n)| + 4 * |EventsIn(DeliveredBoundaries(a), n)|
  {
    if n == 0 {
      hide BySequence, ByCycle;
      assert EventsIn(BySequence(a).Keys, 0) == {} && EventsIn(DeliveredBoundaries(a), 0) == {};
    } else {
      hide BySequence, ByCycle, EventsIn;
      OffsetCounts(a, n - 1);
      EventsStep(BySequence(a).Keys, n);
      EventsStep(DeliveredBoundaries(a), n);
      assert a.records[n - 1].sequence == n;
    }
  }

  /**
   * What the other passes have established of cycles and deliveries: boundaries
   * are events, cycle ids differ, and every delivery belongs to a cycle.
   */
  ghost predicate CyclesPlaced(a: Artifact) {
    && (forall c <- a.cycles :: 1 <= c.boundary <= |a.records|)
    && DistinctKeys(a.cycles, (c: Cycle) => c.id)
    && (forall d <- a.deliveries :: exists c <- a.cycles :: c.id == d.cycleID)
  }

  lemma AllCycleEvents(a: Artifact)
    requires CyclesPlaced(a) && Unambiguous(a)
    ensures |EventsIn(BySequence(a).Keys, |a.records|)| == |a.cycles|
    ensures EventsIn(DeliveredBoundaries(a), |a.records|) == DeliveredBoundaries(a)
  {
    hide DistinctKeys, Index, EventsIn;
    IndexIs(a.cycles, (c: Cycle) => c.boundary);
    FullIndex(a.cycles, (c: Cycle) => c.boundary);
    AllEvents(BySequence(a).Keys, |a.records|);
    AllEvents(DeliveredBoundaries(a), |a.records|);
    assert |BySequence(a).Keys| == |BySequence(a)|;
  }

  /** Two sets are equally large when one maps one-to-one onto the other. */
  lemma {:induction false} OneToOne<T(!new), U(!new)>(f: map<T, U>, onto: set<U>)
    requires forall x, y | x in f && y in f && x != y :: f[x] != f[y]
    requires forall x <- f :: f[x] in onto
    requires forall u <- onto :: exists x <- f :: f[x] == u
    ensures |f| == |onto|
    decreases |f|
  {
    if |f| == 0 {
      assert onto == {};
    } else {
      assert |f.Keys| > 0;
      var x :| x in f.Keys;
      forall u <- onto - {f[x]}
        ensures exists y <- f - {x} :: (f - {x})[y] == u
      {
        var y :| y in f && f[y] == u;
        assert y in f - {x} && (f - {x})[y] == u;
      }
      OneToOne(f - {x}, onto - {f[x]});
      assert f.Keys == (f - {x}).Keys + {x};
      assert onto == (onto - {f[x]}) + {f[x]};
    }
  }

  /** The cycle ids at the boundaries that have a delivery. */
  function DeliveredIds(a: Artifact): map<nat, string> {
    map k <- DeliveredBoundaries(a) :: BySequence(a)[k].id
  }

  lemma SameKeySame<K(!new), V(!new)>(items: seq<V>, key: V -> K, v: V, w: V)
    requires DistinctKeys(items, key) && v in items && w in items && key(v) == key(w)
    ensures v == w
  {
    var i :| 0 <= i < |items| && items[i] == v;
    var j :| 0 <= j < |items| && items[j] == w;
  }

  lemma DeliveredIdsDiffer(a: Artifact, j: nat, k: nat)
    requires CyclesPlaced(a) && j in DeliveredIds(a) && k in DeliveredIds(a) && j != k
    ensures DeliveredIds(a)[j] != DeliveredIds(a)[k]
  {
    hide DistinctKeys, Index;
    IndexIs(a.cycles, (c: Cycle) => c.boundary);
    var c, d := BySequence(a)[j], BySequence(a)[k];
    assert c.boundary == j && d.boundary == k;
    if c.id == d.id {
      SameKeySame(a.cycles, (c: Cycle) => c.id, c, d);
    }
  }

  lemma DeliveryHasBoundary(a: Artifact, id: string) returns (k: nat)
    requires CyclesPlaced(a) && Unambiguous(a) && id in ByCycle(a)
    ensures k in DeliveredIds(a) && DeliveredIds(a)[k] == id
  {
    hide DistinctKeys, Index;
    IndexIs(a.deliveries, (d: Delivery) => d.cycleID);
    IndexIs(a.cycles, (c: Cycle) => c.boundary);
    var d := ByCycle(a)[id];
    var c :| c in a.cycles && c.id == d.cycleID;
    k := c.boundary;
    KeyInIndex(a.cycles, (c: Cycle) => c.boundary, k);
    var i :| 0 <= i < |a.cycles| && a.cycles[i] == c;
    SameKeySame(a.cycles, (c: Cycle) => c.boundary, c, BySequence(a)[k]);
  }

  /** Every delivery belongs to exactly one cycle event. */
  lemma AllDeliveredEvents(a: Artifact)
    requires CyclesPlaced(a) && Unambiguous(a)
    ensures |DeliveredBoundaries(a)| == |a.deliveries|
  {
    FullIndex(a.deliveries, (d: Delivery) => d.cycleID);
    DeliveredAreDeliveries(a);
    hide DistinctKeys, Index, CyclesPlaced, DeliveredBoundaries, BySequence;
    var f := DeliveredIds(a);
    forall j, k | j in f && k in f && j != k
      ensures f[j] != f[k]
    {
      DeliveredIdsDiffer(a, j, k);
    }
    forall id <- ByCycle(a)
      ensures exists k <- f :: f[k] == id
    {
      var k := DeliveryHasBoundary(a, id);
    }
    OneToOne(f, ByCycle(a).Keys);
    assert |f| == |f.Keys| && f.Keys == DeliveredBoundaries(a);
  }

  lemma DeliveredAreDeliveries(a: Artifact)
    ensures forall k <- DeliveredIds(a) :: DeliveredIds(a)[k] in ByCycle(a)
  {
  }

  /** An accepted ledger has two entries per event, five per cycle and four per delivery. */
  lemma LedgerLength(a: Artifact)
    requires ComponentsOk(a) && LedgerAccepted(a) && CyclesPlaced(a)
    ensures |a.entries| == 2 * |a.records| + 5 * |a.cycles| + 4 * |a.deliveries|
  {
    hide Unambiguous, CompleteRecords, CompleteKeys, Chained, BindingsOk, CyclesPlaced, EntryMatches, LayoutUpTo, Offset, EventsIn, DeliveredBoundaries;
    OffsetIsLength(a, |a.records|);
    OffsetCounts(a, |a.records|);
    AllCycleEvents(a);
    AllDeliveredEvents(a);
  }
}
