/** The ledger of an algorithm artifact. */
module LedgerLayout {
  // An exact interleaved layout of record revisions over a chain of tags.
  //
  // Digests and tags are taken as injective: a tag is the term it was computed
  // from.  Identifiers are UUIDs and digests, so the textual record keys are
  // injective too and stand here as terms.

  import opened Util

  datatype Key =
    | TraceEvent(id: string)
    | InvocationDecision(id: string)
    | CycleRecord(id: string, revision: nat)
    | DeliveryRecord(id: string, revision: nat)
    | InterventionOutcome(id: string)
    | OtherKey(text: string)

  datatype Kind = TraceEventKind | DecisionKind | CycleKind | DeliveryKind | OutcomeKind | OtherKind(text: string)

  /** A payload digest: computed from the chain, the head or a complete record, or from something else. */
  datatype Tag =
    | OfChain(run: string, position: nat, key: Key, recordTag: Tag, previous: Option<Tag>)
    | OfHead(run: string, count: nat, chain: Tag, projection: Tag)
    | OfRecord(content: string)
    | OfContent(content: string)
    | Synthetic(text: string)
    | Foreign(text: string)

  datatype Entry = Entry(
    position: nat,
    key: Key,
    kind: Kind,
    revision: Option<nat>,
    state: Option<string>,
    source: Tag,
    recordTag: Tag,
    previous: Option<Tag>,
    chainTag: Tag)

  datatype Head = Head(run: string, entryCount: nat, chainTag: Tag, projectionTag: Tag, headTag: Tag)

  datatype Record = Record(id: string, sequence: nat, digest: Tag, position: nat, recordTag: Tag, chainTag: Tag)

  datatype Decision = Decision(id: string, content: string)

  datatype Cycle = Cycle(boundary: nat, id: string, interventionID: string, source: Tag)

  datatype Delivery = Delivery(id: string, cycleID: string, source: Tag)

  datatype Outcome = Outcome(id: string, interventionID: string, content: string)

  datatype WindowBinding = WindowBinding(boundary: nat, position: nat, chainTag: Tag)

  datatype Artifact = Artifact(
    run: string,
    records: seq<Record>,
    decisions: seq<Decision>,
    cycles: seq<Cycle>,
    deliveries: seq<Delivery>,
    outcomes: seq<Outcome>,
    windows: seq<WindowBinding>,
    entries: seq<Entry>,
    head: Head)

  // ----- indexes: Python dictionaries, a later item replacing an earlier one of the same key -----

  function Index<K, V>(items: seq<V>, key: V -> K): map<K, V> {
    if |items| == 0 then map[]
    else Index(items[..|items| - 1], key)[key(items[|items| - 1]) := items[|items| - 1]]
  }

  function BySequence(a: Artifact): map<nat, Cycle> { Index(a.cycles, (c: Cycle) => c.boundary) }

  function ByCycle(a: Artifact): map<string, Delivery> { Index(a.deliveries, (d: Delivery) => d.cycleID) }

  function ByIntervention(a: Artifact): map<string, Outcome> { Index(a.outcomes, (o: Outcome) => o.interventionID) }

  /** The records whose content is in the artifact, under the key of their ledger entry. */
  datatype Complete = Complete(key: Key, content: string)

  function CompleteList(a: Artifact): seq<Complete> {
    seq(|a.decisions|, i requires 0 <= i < |a.decisions| => Complete(InvocationDecision(a.decisions[i].id), a.decisions[i].content))
      + seq(|a.outcomes|, i requires 0 <= i < |a.outcomes| => Complete(InterventionOutcome(a.outcomes[i].id), a.outcomes[i].content))
  }

  function CompleteRecords(a: Artifact): map<Key, Complete> { Index(CompleteList(a), (c: Complete) => c.key) }

  lemma {:induction false} IndexIs<K, V>(items: seq<V>, key: V -> K)
    ensures forall i | 0 <= i < |items| :: key(items[i]) in Index(items, key)
    ensures forall k <- Index(items, key) :: Index(items, key)[k] in items && key(Index(items, key)[k]) == k
    ensures |Index(items, key)| <= |items|
    decreases |items|
  {
    if |items| > 0 {
      var front, last := items[..|items| - 1], items[|items| - 1];
      IndexIs(front, key);
      var m := Index(front, key);
      assert m[key(last) := last].Keys == m.Keys + {key(last)};
      forall i | 0 <= i < |items|
        ensures key(items[i]) in Index(items, key)
      {
        assert i < |front| ==> items[i] == front[i];
      }
    }
  }

  ghost predicate DistinctKeys<K, V>(items: seq<V>, key: V -> K) {
    forall i, j | 0 <= i < j < |items| :: key(items[i]) != key(items[j])
  }

  lemma DistinctSnoc<K, V>(items: seq<V>, key: V -> K)
    requires |items| > 0
    ensures var front, last := items[..|items| - 1], items[|items| - 1];
            DistinctKeys(items, key) <==> DistinctKeys(front, key) && forall i | 0 <= i < |front| :: key(front[i]) != key(last)
  {
    var front := items[..|items| - 1];
    assert forall i | 0 <= i < |front| :: front[i] == items[i];
  }

  lemma KeyInIndex<K, V>(items: seq<V>, key: V -> K, k: K)
    ensures k in Index(items, key) <==> exists i | 0 <= i < |items| :: key(items[i]) == k
  {
    IndexIs(items, key);
    if k in Index(items, key) {
      var v := Index(items, key)[k];
      var i :| 0 <= i < |items| && items[i] == v;
    }
  }

  lemma IndexSnoc<K, V>(items: seq<V>, key: V -> K)
    requires |items| > 0
    ensures var front, last := items[..|items| - 1], items[|items| - 1];
            |Index(items, key)| == |Index(front, key)| + if key(last) in Index(front, key) then 0 else 1
  {
    var front, last := items[..|items| - 1], items[|items| - 1];
    var m := Index(front, key);
    assert m[key(last) := last].Keys == m.Keys + {key(last)};
  }

  /** An index as large as its list is one whose keys are distinct. */
  lemma {:induction false} FullIndex<K, V>(items: seq<V>, key: V -> K)
    ensures |Index(items, key)| == |items| <==> DistinctKeys(items, key)
    decreases |items|
  {
    if |items| > 0 {
      hide DistinctKeys, Index;
      var front, last := items[..|items| - 1], items[|items| - 1];
      FullIndex(front, key);
      IndexIs(front, key);
      IndexSnoc(items, key);
      DistinctSnoc(items, key);
      KeyInIndex(front, key, key(last));
    } else {
      NoItems(items, key);
    }
  }

  lemma NoItems<K, V>(items: seq<V>, key: V -> K)
    requires |items| == 0
    ensures |Index(items, key)| == 0 && DistinctKeys(items, key)
  {
  }

  // ----- the layout -----

  datatype Slot = Slot(key: Key, kind: Kind, revision: Option<nat>, state: Option<string>, source: Option<Tag>)

  const CYCLE_STATES := ["pending", "reserved", "running", "committed"]
  const DELIVERY_STATES := ["pending", "claimed", "attempting", "delivered"]

  function CycleSlot(c: Cycle, revision: nat): Slot
    requires 1 <= revision <= 4
  {
    Slot(CycleRecord(c.id, revision), CycleKind, Some(revision), Some(CYCLE_STATES[revision - 1]),
         if revision == 4 then Some(c.source) else None)
  }

  function DeliverySlot(d: Delivery, revision: nat): Slot
    requires 1 <= revision <= 4
  {
    Slot(DeliveryRecord(d.id, revision), DeliveryKind, Some(revision), Some(DELIVERY_STATES[revision - 1]),
         if revision == 4 then Some(d.source) else None)
  }

  function OutcomeSlot(o: Outcome): Slot {
    Slot(InterventionOutcome(o.id), OutcomeKind, None, None, Some(OfContent(o.content)))
  }

  predicate HasCycle(a: Artifact, i: nat)
    requires i < |a.records|
  {
    a.records[i].sequence in BySequence(a)
  }

  function CycleAt(a: Artifact, i: nat): Cycle
    requires i < |a.records| && HasCycle(a, i)
  {
    BySequence(a)[a.records[i].sequence]
  }

  /** What the cycle at an event adds: its revisions, those of its delivery, and its outcome. */
  function CycleBlock(a: Artifact, c: Cycle): (block: seq<Slot>)
    requires c.interventionID in ByIntervention(a)
  {
    [CycleSlot(c, 1), CycleSlot(c, 2), CycleSlot(c, 3), CycleSlot(c, 4)]
      + (if c.id in ByCycle(a) then
           var d := ByCycle(a)[c.id];
           [DeliverySlot(d, 1), DeliverySlot(d, 2), DeliverySlot(d, 3), DeliverySlot(d, 4)]
         else [])
      + [OutcomeSlot(ByIntervention(a)[c.interventionID])]
  }

  /** Every cycle at one of the first `n` events has its outcome. */
  predicate OutcomesPresent(a: Artifact, n: nat)
    requires n <= |a.records|
  {
    forall i | 0 <= i < n :: HasCycle(a, i) ==> CycleAt(a, i).interventionID in ByIntervention(a)
  }

  function EventSlots(a: Artifact, i: nat): seq<Slot>
    requires i < |a.records| == |a.decisions|
  {
    [Slot(TraceEvent(a.records[i].id), TraceEventKind, None, None, Some(a.records[i].digest)),
     Slot(InvocationDecision(a.decisions[i].id), DecisionKind, None, None, Some(OfContent(a.decisions[i].content)))]
  }

  function Block(a: Artifact, i: nat): seq<Slot>
    requires i < |a.records| == |a.decisions| && OutcomesPresent(a, i + 1)
  {
    EventSlots(a, i) + if HasCycle(a, i) then CycleBlock(a, CycleAt(a, i)) else []
  }

  function LayoutUpTo(a: Artifact, n: nat): seq<Slot>
    requires n <= |a.records| == |a.decisions| && OutcomesPresent(a, n)
  {
    if n == 0 then [] else LayoutUpTo(a, n - 1) + Block(a, n - 1)
  }

  // ----- acceptance, declaratively -----

  /** Each entry's chain tag seals its position, its key, its record tag and the tag before it. */
  ghost predicate Chained(run: string, entries: seq<Entry>) {
    forall i | 0 <= i < |entries| :: ChainedAt(run, entries, i)
  }

  ghost predicate ChainedAt(run: string, entries: seq<Entry>, i: nat)
    requires i < |entries|
  {
    && entries[i].previous == PreviousTag(entries, i)
    && entries[i].chainTag == OfChain(run, entries[i].position, entries[i].key, entries[i].recordTag, entries[i].previous)
  }

  function PreviousTag(entries: seq<Entry>, i: nat): Option<Tag>
    requires i <= |entries|
  {
    if i == 0 then None else Some(entries[i - 1].chainTag)
  }

  predicate Genuine(tag: Tag) {
    !tag.Foreign?
  }

  predicate EntryMatches(a: Artifact, entry: Entry, slot: Slot) {
    && entry.key == slot.key && entry.kind == slot.kind && entry.revision == slot.revision && entry.state == slot.state
    && (slot.source.Some? ==> entry.source == slot.source.value)
    && (slot.key in CompleteRecords(a) ==> entry.recordTag == OfRecord(CompleteRecords(a)[slot.key].content))
  }

  ghost predicate LayoutMatches(a: Artifact)
    requires |a.decisions| == |a.records|
  {
    && OutcomesPresent(a, |a.records|)
    && |LayoutUpTo(a, |a.records|)| == |a.entries|
    && forall i | 0 <= i < |a.entries| :: EntryMatches(a, a.entries[i], LayoutUpTo(a, |a.records|)[i])
  }

  predicate Bound(record: Record, entry: Entry) {
    record.position == entry.position && record.recordTag == entry.recordTag && record.chainTag == entry.chainTag
  }

  /** What the component validators have established before the ledger pass. */
  ghost predicate ComponentsOk(a: Artifact) {
    && |a.decisions| == |a.records| && |a.entries| > 0
    && (forall i | 0 <= i < |a.records| :: a.records[i].sequence == i + 1)
    && (forall i | 0 <= i < |a.entries| :: a.entries[i].position == i + 1)
    && (forall w <- a.windows :: 1 <= w.boundary <= |a.records|)
    && a.head.run == a.run && a.head.entryCount == |a.entries|
  }

  // ----- sizes and positions -----

  function BlockSize(a: Artifact, i: nat): nat
    requires i < |a.records|
  {
    2 + if HasCycle(a, i) then 5 + (if CycleAt(a, i).id in ByCycle(a) then 4 else 0) else 0
  }

  /** Entries before the block of event `n`. */
  function Offset(a: Artifact, n: nat): nat
    requires n <= |a.records|
  {
    if n == 0 then 0 else Offset(a, n - 1) + BlockSize(a, n - 1)
  }

  lemma {:induction false} OffsetIsLength(a: Artifact, n: nat)
    requires n <= |a.records| == |a.decisions| && OutcomesPresent(a, n)
    ensures |LayoutUpTo(a, n)| == Offset(a, n)
  {
    if n > 0 {
      OffsetIsLength(a, n - 1);
    }
  }

  /** A longer layout extends a shorter one. */
  lemma {:induction false} LayoutExtends(a: Artifact, m: nat, n: nat)
    requires m <= n <= |a.records| == |a.decisions| && OutcomesPresent(a, n)
    ensures LayoutUpTo(a, m) <= LayoutUpTo(a, n)
    decreases n
  {
    if m < n {
      LayoutExtends(a, m, n - 1);
    }
  }

  /** Event `k` opens its block: its trace entry sits right after the blocks of the earlier events. */
  lemma TraceSlotAt(a: Artifact, k: nat)
    requires k < |a.records| == |a.decisions| && OutcomesPresent(a, |a.records|)
    ensures Offset(a, k) < |LayoutUpTo(a, |a.records|)|
    ensures LayoutUpTo(a, |a.records|)[Offset(a, k)] == EventSlots(a, k)[0]
  {
    LayoutExtends(a, k + 1, |a.records|);
    OffsetIsLength(a, k);
    assert LayoutUpTo(a, k + 1)[Offset(a, k)] == Block(a, k)[0];
  }
}
