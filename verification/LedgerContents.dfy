/** What stands in an accepted ledger, entry by entry. */
module LedgerContents {
  import opened Util
  import opened LedgerLayout
  import opened LedgerValidation

  // ----- the entries of one event, written out -----

  predicate Shows(e: Entry, key: Key, kind: Kind, revision: Option<nat>, state: Option<string>) {
    e.key == key && e.kind == kind && e.revision == revision && e.state == state
  }

  /** Entry `p` belongs to event `k`, the next one to its decision, and the event's record points back. */
  predicate EventShown(a: Artifact, k: nat, p: nat)
    requires k < |a.records| == |a.decisions|
  {
    && p + 2 <= |a.entries|
    && Shows(a.entries[p], TraceEvent(a.records[k].id), TraceEventKind, None, None)
    && a.entries[p].source == a.records[k].digest
    && a.records[k].position == p + 1
    && a.records[k].recordTag == a.entries[p].recordTag && a.records[k].chainTag == a.entries[p].chainTag
    && Shows(a.entries[p + 1], InvocationDecision(a.decisions[k].id), DecisionKind, None, None)
    && a.entries[p + 1].source == OfContent(a.decisions[k].content)
    && a.entries[p + 1].recordTag == OfRecord(a.decisions[k].content)
  }

  /** From entry `p` on, the cycle's four revisions, the last with its source. */
  predicate CycleShown(a: Artifact, p: nat, c: Cycle) {
    && p + 4 <= |a.entries|
    && Shows(a.entries[p], CycleRecord(c.id, 1), CycleKind, Some(1), Some("pending"))
    && Shows(a.entries[p + 1], CycleRecord(c.id, 2), CycleKind, Some(2), Some("reserved"))
    && Shows(a.entries[p + 2], CycleRecord(c.id, 3), CycleKind, Some(3), Some("running"))
    && Shows(a.entries[p + 3], CycleRecord(c.id, 4), CycleKind, Some(4), Some("committed"))
    && a.entries[p + 3].source == c.source
  }

  predicate DeliveryShown(a: Artifact, p: nat, d: Delivery) {
    && p + 4 <= |a.entries|
    && Shows(a.entries[p], DeliveryRecord(d.id, 1), DeliveryKind, Some(1), Some("pending"))
    && Shows(a.entries[p + 1], DeliveryRecord(d.id, 2), DeliveryKind, Some(2), Some("claimed"))
    && Shows(a.entries[p + 2], DeliveryRecord(d.id, 3), DeliveryKind, Some(3), Some("attempting"))
    && Shows(a.entries[p + 3], DeliveryRecord(d.id, 4), DeliveryKind, Some(4), Some("delivered"))
    && a.entries[p + 3].source == d.source
  }

  predicate OutcomeShown(a: Artifact, p: nat, o: Outcome) {
    && p < |a.entries|
    && Shows(a.entries[p], InterventionOutcome(o.id), OutcomeKind, None, None)
    && a.entries[p].source == OfContent(o.content) && a.entries[p].recordTag == OfRecord(o.content)
  }

  /** The cycle at entry `p`, its delivery if it has one, then its outcome, and nothing before entry `end`. */
  ghost predicate CycleAndOutcomeShown(a: Artifact, p: nat, c: Cycle, end: nat) {
    && CycleShown(a, p, c)
    && (forall d <- a.deliveries | d.cycleID == c.id :: DeliveryShown(a, p + 4, d))
    && end == p + 5 + (if exists d <- a.deliveries :: d.cycleID == c.id then 4 else 0)
    && exists o <- a.outcomes :: o.interventionID == c.interventionID && OutcomeShown(a, end - 1, o)
  }

  /** Everything of event `k` stands at the entries from `p` up to `end`. */
  ghost predicate BlockShown(a: Artifact, k: nat, p: nat, end: nat)
    requires k < |a.records| == |a.decisions|
  {
    && EventShown(a, k, p)
    && (forall c <- a.cycles | c.boundary == k + 1 :: CycleAndOutcomeShown(a, p + 2, c, end))
    && ((forall c <- a.cycles :: c.boundary != k + 1) ==> end == p + 2)
  }

  // ----- indexes over distinct keys are look-ups -----

  lemma {:induction false} LookUp<K, V>(items: seq<V>, key: V -> K, v: V)
    requires DistinctKeys(items, key) && v in items
    ensures key(v) in Index(items, key) && Index(items, key)[key(v)] == v
    decreases |items|
  {
    hide DistinctKeys;
    var front, last := items[..|items| - 1], items[|items| - 1];
    DistinctSnoc(items, key);
    if v != last {
      var i :| 0 <= i < |items| && items[i] == v;
      assert front[i] == v;
      LookUp(front, key, v);
    }
  }

  /** A key is indexed exactly when an item has it, and then that item is what the index gives. */
  lemma IndexLooksUp<K, V>(items: seq<V>, key: V -> K)
    requires DistinctKeys(items, key)
    ensures forall v <- items :: key(v) in Index(items, key) && Index(items, key)[key(v)] == v
    ensures forall k <- Index(items, key) :: Index(items, key)[k] in items && key(Index(items, key)[k]) == k
  {
    IndexIs(items, key);
    forall v <- items
      ensures key(v) in Index(items, key) && Index(items, key)[key(v)] == v
    {
      LookUp(items, key, v);
    }
  }

  lemma CyclesLookUp(a: Artifact)
    requires Unambiguous(a)
    ensures forall c <- a.cycles :: c.boundary in BySequence(a) && BySequence(a)[c.boundary] == c
    ensures forall k <- BySequence(a) :: BySequence(a)[k] in a.cycles && BySequence(a)[k].boundary == k
    ensures forall d <- a.deliveries :: d.cycleID in ByCycle(a) && ByCycle(a)[d.cycleID] == d
    ensures forall k <- ByCycle(a) :: ByCycle(a)[k] in a.deliveries && ByCycle(a)[k].cycleID == k
    ensures forall o <- a.outcomes :: o.interventionID in ByIntervention(a) && ByIntervention(a)[o.interventionID] == o
    ensures forall k <- ByIntervention(a) :: ByIntervention(a)[k] in a.outcomes && ByIntervention(a)[k].interventionID == k
  {
    hide Index, DistinctKeys;
    IndexLooksUp(a.cycles, (c: Cycle) => c.boundary);
    IndexLooksUp(a.deliveries, (d: Delivery) => d.cycleID);
    IndexLooksUp(a.outcomes, (o: Outcome) => o.interventionID);
  }

  /** The complete records are the decisions and the outcomes, each under its own key. */
  lemma CompleteLookUp(a: Artifact)
    requires Unambiguous(a)
    ensures forall i | 0 <= i < |a.decisions| :: var key := InvocationDecision(a.decisions[i].id);
              key in CompleteRecords(a) && CompleteRecords(a)[key].content == a.decisions[i].content
    ensures forall o <- a.outcomes :: var key := InterventionOutcome(o.id);
              key in CompleteRecords(a) && CompleteRecords(a)[key].content == o.content
    ensures forall key <- CompleteRecords(a) :: key.InvocationDecision? || key.InterventionOutcome?
  {
    hide Index, DistinctKeys;
    var list := CompleteList(a);
    IndexLooksUp(list, (c: Complete) => c.key);
    forall i | 0 <= i < |a.decisions|
      ensures Complete(InvocationDecision(a.decisions[i].id), a.decisions[i].content) in list
    {
      assert list[i] == Complete(InvocationDecision(a.decisions[i].id), a.decisions[i].content);
    }
    forall o <- a.outcomes
      ensures Complete(InterventionOutcome(o.id), o.content) in list
    {
      var i :| 0 <= i < |a.outcomes| && a.outcomes[i] == o;
      assert list[|a.decisions| + i] == Complete(InterventionOutcome(o.id), o.content);
    }
    forall key <- CompleteRecords(a)
      ensures key.InvocationDecision? || key.InterventionOutcome?
    {
      var c := CompleteRecords(a)[key];
      var i :| 0 <= i < |list| && list[i] == c;
    }
  }

  // ----- an accepted ledger -----

  lemma SlotShown(a: Artifact, k: nat, j: nat)
    requires ComponentsOk(a) && LayoutMatches(a) && k < |a.records|
    requires OutcomesPresent(a, k + 1) && j < |Block(a, k)|
    ensures Offset(a, k) + j < |a.entries| && Offset(a, k + 1) == Offset(a, k) + |Block(a, k)|
    ensures EntryMatches(a, a.entries[Offset(a, k) + j], Block(a, k)[j])
  {
    hide Block, EntryMatches, LayoutUpTo, HasCycle;
    BlockInLayout(a, k);
    assert LayoutUpTo(a, |a.records|)[Offset(a, k) + j] == Block(a, k)[j];
  }

  lemma AcceptedParts(a: Artifact)
    requires ComponentsOk(a) && LedgerAccepted(a)
    ensures Unambiguous(a) && LayoutMatches(a)
    ensures forall k | 0 <= k < |a.records| :: Bound(a.records[k], TraceEntry(a, k))
    ensures forall w <- a.windows :: 1 <= w.boundary <= |a.records| && BoundTo(w, TraceEntry(a, w.boundary - 1))
    ensures CompleteKeys(a.entries) == CompleteRecords(a).Keys
  {
    hide Chained, HeadSealed, Unambiguous, CompleteKeys, CompleteRecords, LayoutUpTo, EntryMatches, Bound, BoundTo;
  }

  lemma TraceEntryIs(a: Artifact, k: nat)
    requires ComponentsOk(a) && LayoutMatches(a) && k < |a.records|
    ensures Offset(a, k) < |a.entries| && TraceEntry(a, k) == a.entries[Offset(a, k)]
    ensures a.entries[Offset(a, k)].position == Offset(a, k) + 1
  {
    hide LayoutUpTo, EntryMatches, Offset;
    TraceSlotAt(a, k);
  }

  lemma EventIsShown(a: Artifact, k: nat)
    requires ComponentsOk(a) && LedgerAccepted(a) && k < |a.records|
    ensures EventShown(a, k, Offset(a, k))
  {
    hide LedgerAccepted, LayoutMatches, ComponentsOk, Block, EntryMatches, TraceEntry, Unambiguous, CompleteRecords, HasCycle;
    AcceptedParts(a);
    EventCounts(a, k);
    SlotCount(a, k);
    SlotShown(a, k, 0);
    SlotShown(a, k, 1);
    TraceEntryIs(a, k);
    EventMatchesShown(a, k, Offset(a, k));
  }

  lemma EventCounts(a: Artifact, k: nat)
    requires ComponentsOk(a) && LayoutMatches(a) && k < |a.records|
    ensures |a.records| == |a.decisions| && OutcomesPresent(a, k + 1)
  {
    hide LayoutUpTo, EntryMatches;
    OutcomesUpTo(a, k + 1);
  }

  lemma EventMatchesShown(a: Artifact, k: nat, p: nat)
    requires Unambiguous(a) && k < |a.records| == |a.decisions| && p + 2 <= |a.entries| && a.entries[p].position == p + 1
    requires EntryMatches(a, a.entries[p], EventSlots(a, k)[0]) && EntryMatches(a, a.entries[p + 1], EventSlots(a, k)[1])
    requires Bound(a.records[k], a.entries[p])
    ensures EventShown(a, k, p)
  {
    hide Unambiguous, CompleteRecords;
    CompleteLookUp(a);
  }

  lemma SlotCount(a: Artifact, k: nat)
    requires k < |a.records| == |a.decisions| && OutcomesPresent(a, k + 1)
    ensures |EventSlots(a, k)| == 2 && |Block(a, k)| == BlockSize(a, k)
    ensures Block(a, k)[0] == EventSlots(a, k)[0] && Block(a, k)[1] == EventSlots(a, k)[1]
  {
  }

  /** The slots of a cycle block, one by one. */
  lemma CycleBlockIs(a: Artifact, c: Cycle)
    requires c.interventionID in ByIntervention(a)
    ensures var block := CycleBlock(a, c);
            && |block| == 5 + (if c.id in ByCycle(a) then 4 else 0)
            && block[0] == CycleSlot(c, 1) && block[1] == CycleSlot(c, 2) && block[2] == CycleSlot(c, 3) && block[3] == CycleSlot(c, 4)
            && (c.id in ByCycle(a) ==>
                  var d := ByCycle(a)[c.id];
                  && block[4] == DeliverySlot(d, 1) && block[5] == DeliverySlot(d, 2)
                  && block[6] == DeliverySlot(d, 3) && block[7] == DeliverySlot(d, 4))
            && block[|block| - 1] == OutcomeSlot(ByIntervention(a)[c.interventionID])
  {
    hide ByCycle, ByIntervention, CycleSlot, DeliverySlot, OutcomeSlot;
  }

  /** Entry `p + j` is slot `j` of the cycle block. */
  ghost predicate BlockAt(a: Artifact, c: Cycle, p: nat)
    requires c.interventionID in ByIntervention(a)
  {
    && p + |CycleBlock(a, c)| <= |a.entries|
    && forall j | 0 <= j < |CycleBlock(a, c)| :: EntryMatches(a, a.entries[p + j], CycleBlock(a, c)[j])
  }

  lemma CycleShownIff(a: Artifact, c: Cycle, p: nat)
    requires Unambiguous(a) && p + 4 <= |a.entries|
    ensures (&& EntryMatches(a, a.entries[p], CycleSlot(c, 1)) && EntryMatches(a, a.entries[p + 1], CycleSlot(c, 2))
             && EntryMatches(a, a.entries[p + 2], CycleSlot(c, 3)) && EntryMatches(a, a.entries[p + 3], CycleSlot(c, 4)))
            <==> CycleShown(a, p, c)
  {
    hide Unambiguous, CompleteRecords;
    CompleteLookUp(a);
  }

  lemma DeliveryShownIff(a: Artifact, d: Delivery, p: nat)
    requires Unambiguous(a) && p + 4 <= |a.entries|
    ensures (&& EntryMatches(a, a.entries[p], DeliverySlot(d, 1)) && EntryMatches(a, a.entries[p + 1], DeliverySlot(d, 2))
             && EntryMatches(a, a.entries[p + 2], DeliverySlot(d, 3)) && EntryMatches(a, a.entries[p + 3], DeliverySlot(d, 4)))
            <==> DeliveryShown(a, p, d)
  {
    hide Unambiguous, CompleteRecords;
    CompleteLookUp(a);
  }

  lemma OutcomeShownIff(a: Artifact, o: Outcome, p: nat)
    requires Unambiguous(a) && p < |a.entries| && o in a.outcomes
    ensures EntryMatches(a, a.entries[p], OutcomeSlot(o)) <==> OutcomeShown(a, p, o)
  {
    hide Unambiguous, CompleteRecords;
    CompleteLookUp(a);
  }

  /** A cycle's delivery and outcome, when there are any, are the ones the indexes give. */
  lemma Unique(a: Artifact, c: Cycle)
    requires Unambiguous(a)
    ensures c.id in ByCycle(a) <==> exists d <- a.deliveries :: d.cycleID == c.id
    ensures c.id in ByCycle(a) ==> ByCycle(a)[c.id] in a.deliveries
    ensures c.id in ByCycle(a) ==> forall d <- a.deliveries | d.cycleID == c.id :: d == ByCycle(a)[c.id]
    ensures c.interventionID in ByIntervention(a) <==> exists o <- a.outcomes :: o.interventionID == c.interventionID
    ensures c.interventionID in ByIntervention(a) ==> ByIntervention(a)[c.interventionID] in a.outcomes
    ensures c.interventionID in ByIntervention(a) ==>
      forall o <- a.outcomes | o.interventionID == c.interventionID :: o == ByIntervention(a)[c.interventionID]
  {
    CyclesLookUp(a);
    hide Unambiguous, ByCycle, ByIntervention, BySequence;
  }

  lemma BlockAtShown(a: Artifact, c: Cycle, p: nat)
    requires Unambiguous(a) && c.interventionID in ByIntervention(a) && BlockAt(a, c, p)
    ensures CycleAndOutcomeShown(a, p, c, p + |CycleBlock(a, c)|)
  {
    hide Unambiguous, EntryMatches, CycleBlock, CycleSlot, DeliverySlot, OutcomeSlot, CycleShown, DeliveryShown, OutcomeShown, ByCycle, ByIntervention;
    CycleBlockIs(a, c);
    Unique(a, c);
    var block := CycleBlock(a, c);
    var last := |block| - 1;
    assert EntryMatches(a, a.entries[p + 0], block[0]) && EntryMatches(a, a.entries[p + 1], block[1]);
    assert EntryMatches(a, a.entries[p + 2], block[2]) && EntryMatches(a, a.entries[p + 3], block[3]);
    assert EntryMatches(a, a.entries[p + last], block[last]);
    CycleShownIff(a, c, p);
    OutcomeShownIff(a, ByIntervention(a)[c.interventionID], p + last);
    if c.id in ByCycle(a) {
      assert EntryMatches(a, a.entries[p + 4], block[4]) && EntryMatches(a, a.entries[p + 5], block[5]);
      assert EntryMatches(a, a.entries[p + 6], block[6]) && EntryMatches(a, a.entries[p + 7], block[7]);
      DeliveryShownIff(a, ByCycle(a)[c.id], p + 4);
    }
  }

  lemma ShownBlockAt(a: Artifact, c: Cycle, p: nat, end: nat)
    requires Unambiguous(a) && CycleAndOutcomeShown(a, p, c, end)
    ensures c.interventionID in ByIntervention(a) && end == p + |CycleBlock(a, c)| && BlockAt(a, c, p)
  {
    hide Unambiguous, EntryMatches, CycleBlock, CycleSlot, DeliverySlot, OutcomeSlot, CycleShown, DeliveryShown, OutcomeShown, ByCycle, ByIntervention;
    ShownFits(a, p, c, end);
    Unique(a, c);
    CycleBlockIs(a, c);
    CycleShownIff(a, c, p);
    OutcomeShownIff(a, ByIntervention(a)[c.interventionID], end - 1);
    if c.id in ByCycle(a) {
      DeliveryShownIff(a, ByCycle(a)[c.id], p + 4);
    }
    var block := CycleBlock(a, c);
    forall j | 0 <= j < |block|
      ensures EntryMatches(a, a.entries[p + j], block[j])
    {
      assert j < 4 ==> j == 0 || j == 1 || j == 2 || j == 3;
      assert 4 <= j < |block| - 1 ==> c.id in ByCycle(a) && (j == 4 || j == 5 || j == 6 || j == 7);
    }
  }

  lemma ShownFits(a: Artifact, p: nat, c: Cycle, end: nat)
    requires CycleAndOutcomeShown(a, p, c, end)
    ensures p + 5 <= end <= |a.entries|
  {
  }

  lemma CycleOfEvent(a: Artifact, k: nat)
    requires ComponentsOk(a) && Unambiguous(a) && k < |a.records|
    ensures HasCycle(a, k) <==> exists c <- a.cycles :: c.boundary == k + 1
    ensures HasCycle(a, k) ==> CycleAt(a, k) in a.cycles
    ensures HasCycle(a, k) ==> forall c <- a.cycles | c.boundary == k + 1 :: c == CycleAt(a, k)
  {
    CyclesLookUp(a);
    hide Unambiguous, ByCycle, ByIntervention, BySequence;
  }

  lemma CycleSlotMatches(a: Artifact, k: nat, j: nat)
    requires ComponentsOk(a) && LayoutMatches(a) && k < |a.records| && HasCycle(a, k)
    requires CycleAt(a, k).interventionID in ByIntervention(a) && j < |CycleBlock(a, CycleAt(a, k))|
    ensures Offset(a, k) + 2 + j < |a.entries|
    ensures EntryMatches(a, a.entries[Offset(a, k) + 2 + j], CycleBlock(a, CycleAt(a, k))[j])
    ensures Offset(a, k + 1) == Offset(a, k) + 2 + |CycleBlock(a, CycleAt(a, k))|
  {
    hide LayoutMatches, EntryMatches, CycleBlock, BySequence, ByIntervention, Offset, HasCycle, CycleAt, Block;
    EventCounts(a, k);
    BlockHasCycle(a, k);
    assert Block(a, k)[j + 2] == CycleBlock(a, CycleAt(a, k))[j];
    SlotShown(a, k, j + 2);
  }

  lemma CycleSlotsMatch(a: Artifact, k: nat)
    requires ComponentsOk(a) && LayoutMatches(a) && k < |a.records| && HasCycle(a, k)
    ensures CycleAt(a, k).interventionID in ByIntervention(a)
    ensures BlockAt(a, CycleAt(a, k), Offset(a, k) + 2)
    ensures Offset(a, k + 1) == Offset(a, k) + 2 + |CycleBlock(a, CycleAt(a, k))|
  {
    hide LayoutMatches, EntryMatches, CycleBlock, BySequence, ByIntervention, ByCycle, Offset, HasCycle, CycleAt, ComponentsOk;
    EventCounts(a, k);
    CycleOutcome(a, k);
    var c := CycleAt(a, k);
    CycleBlockIs(a, c);
    CycleSlotMatches(a, k, |CycleBlock(a, c)| - 1);
    forall j | 0 <= j < |CycleBlock(a, c)|
      ensures EntryMatches(a, a.entries[Offset(a, k) + 2 + j], CycleBlock(a, c)[j])
    {
      CycleSlotMatches(a, k, j);
    }
  }

  lemma CycleOutcome(a: Artifact, k: nat)
    requires k < |a.records| && OutcomesPresent(a, k + 1) && HasCycle(a, k)
    ensures CycleAt(a, k).interventionID in ByIntervention(a)
  {
  }

  /** In an accepted ledger everything of event `k` stands at its offset, in order, and nothing else up to event `k + 1`. */
  lemma BlockIsShown(a: Artifact, k: nat)
    requires ComponentsOk(a) && LedgerAccepted(a) && k < |a.records|
    ensures BlockShown(a, k, Offset(a, k), Offset(a, k + 1))
  {
    hide LedgerAccepted, LayoutMatches, Unambiguous, CycleBlock, EventShown, CycleAndOutcomeShown, BySequence, ByCycle, ByIntervention,
         TraceEntry, Block, BlockAt;
    AcceptedParts(a);
    EventIsShown(a, k);
    CycleOfEvent(a, k);
    if HasCycle(a, k) {
      CycleSlotsMatch(a, k);
      BlockAtShown(a, CycleAt(a, k), Offset(a, k) + 2);
    }
  }

  lemma BlockHasCycle(a: Artifact, k: nat)
    requires k < |a.records| == |a.decisions| && OutcomesPresent(a, k + 1) && HasCycle(a, k)
    ensures var block := CycleBlock(a, CycleAt(a, k));
            && |Block(a, k)| == 2 + |block| && Block(a, k)[2..] == block
            && forall j | 0 <= j < |block| :: Block(a, k)[j + 2] == block[j]
  {
    hide CycleBlock;
  }

  // ----- acceptance, written out -----

  /** The blocks of all events, one after the other, make up the ledger. */
  ghost predicate LedgerShown(a: Artifact, starts: seq<nat>)
    requires |a.records| == |a.decisions|
  {
    && |starts| == |a.records| + 1 && starts[0] == 0 && starts[|a.records|] == |a.entries|
    && forall k | 0 <= k < |a.records| :: BlockShown(a, k, starts[k], starts[k + 1])
  }

  /** Each window is bound to the entry of the event at its boundary. */
  ghost predicate WindowsShown(a: Artifact, starts: seq<nat>) {
    |starts| == |a.records| + 1 && forall w <- a.windows :: WindowShown(a, starts, w)
  }

  predicate WindowShown(a: Artifact, starts: seq<nat>, w: WindowBinding)
    requires |starts| == |a.records| + 1
  {
    1 <= w.boundary <= |a.records| &&
    var p := starts[w.boundary - 1];
    p < |a.entries| && w.position == p + 1 && w.chainTag == a.entries[p].chainTag
  }

  /** Every outcome of the artifact has its entry. */
  ghost predicate NoSpareOutcome(a: Artifact) {
    forall o <- a.outcomes :: exists e <- a.entries :: e.key == InterventionOutcome(o.id) && e.kind == OutcomeKind
  }

  ghost predicate SealShown(a: Artifact, i: nat)
    requires i < |a.entries|
  {
    && !a.entries[i].recordTag.Foreign?
    && a.entries[i].previous == (if i == 0 then None else Some(a.entries[i - 1].chainTag))
    && a.entries[i].chainTag == OfChain(a.run, i + 1, a.entries[i].key, a.entries[i].recordTag, a.entries[i].previous)
  }

  ghost predicate SealsShown(a: Artifact) {
    && (forall i | 0 <= i < |a.entries| :: SealShown(a, i))
    && |a.entries| > 0 && a.head.chainTag == a.entries[|a.entries| - 1].chainTag && !a.head.projectionTag.Foreign?
    && a.head.headTag == OfHead(a.run, |a.entries|, a.head.chainTag, a.head.projectionTag)
  }

  ghost predicate Distinct(a: Artifact) {
    && (forall i, j | 0 <= i < j < |a.cycles| :: a.cycles[i].boundary != a.cycles[j].boundary)
    && (forall i, j | 0 <= i < j < |a.deliveries| :: a.deliveries[i].cycleID != a.deliveries[j].cycleID)
    && (forall i, j | 0 <= i < j < |a.outcomes| :: a.outcomes[i].interventionID != a.outcomes[j].interventionID)
    && (forall i, j | 0 <= i < j < |a.decisions| :: a.decisions[i].id != a.decisions[j].id)
    && (forall i, j | 0 <= i < j < |a.outcomes| :: a.outcomes[i].id != a.outcomes[j].id)
  }

  lemma DistinctIff(a: Artifact)
    ensures Distinct(a) <==> Unambiguous(a)
  {
    var list, n := CompleteList(a), |a.decisions|;
    assert forall i | 0 <= i < n :: list[i].key == InvocationDecision(a.decisions[i].id);
    assert forall i | 0 <= i < |a.outcomes| :: list[n + i].key == InterventionOutcome(a.outcomes[i].id);
    if Unambiguous(a) {
      forall i, j | 0 <= i < j < |a.outcomes|
        ensures a.outcomes[i].id != a.outcomes[j].id
      {
        assert list[n + i].key != list[n + j].key;
      }
    }
    if Distinct(a) {
      forall i, j | 0 <= i < j < |list|
        ensures list[i].key != list[j].key
      {
        if n <= i {
          assert list[i].key == InterventionOutcome(a.outcomes[i - n].id) && list[j].key == InterventionOutcome(a.outcomes[j - n].id);
        } else if n <= j {
          assert list[j].key == InterventionOutcome(a.outcomes[j - n].id);
        }
      }
    }
  }

  lemma SealIff(a: Artifact, i: nat)
    requires ComponentsOk(a) && i < |a.entries|
    ensures SealShown(a, i) <==> Genuine(a.entries[i].recordTag) && ChainedAt(a.run, a.entries, i)
    ensures SealShown(a, i) ==> Genuine(a.entries[i].chainTag)
  {
  }

  lemma SealsIff(a: Artifact)
    requires ComponentsOk(a)
    ensures SealsShown(a) <==> (forall e <- a.entries :: Genuine(e.recordTag)) && Chained(a.run, a.entries) && HeadSealed(a)
  {
    hide SealShown, ChainedAt, Genuine, HeadSealed;
    forall i | 0 <= i < |a.entries|
      ensures SealShown(a, i) <==> Genuine(a.entries[i].recordTag) && ChainedAt(a.run, a.entries, i)
      ensures SealShown(a, i) ==> Genuine(a.entries[i].chainTag)
    {
      SealIff(a, i);
    }
    HeadIff(a);
    AllGenuine(a.entries);
    assert SealsShown(a) ==> SealShown(a, |a.entries| - 1);
  }

  lemma AllGenuine(entries: seq<Entry>)
    ensures (forall e <- entries :: Genuine(e.recordTag)) <==> forall i | 0 <= i < |entries| :: Genuine(entries[i].recordTag)
  {
    hide Genuine;
    if forall e <- entries :: Genuine(e.recordTag) {
      assert forall i | 0 <= i < |entries| :: entries[i] in entries;
    }
  }

  lemma HeadIff(a: Artifact)
    requires ComponentsOk(a)
    ensures Genuine(a.entries[|a.entries| - 1].chainTag) ==>
      (HeadSealed(a) <==>
        && a.head.chainTag == a.entries[|a.entries| - 1].chainTag && !a.head.projectionTag.Foreign?
        && a.head.headTag == OfHead(a.run, |a.entries|, a.head.chainTag, a.head.projectionTag))
  {
  }

  /** Shown blocks start at the offsets, and every cycle has its outcome. */
  lemma {:induction false} StartsAreOffsets(a: Artifact, starts: seq<nat>, n: nat)
    requires ComponentsOk(a) && Unambiguous(a) && LedgerShown(a, starts) && n <= |a.records|
    ensures OutcomesPresent(a, n) && starts[n] == Offset(a, n)
  {
    hide Unambiguous, BySequence, ByCycle, ByIntervention, EventShown, CycleAndOutcomeShown, CycleBlock;
    if n > 0 {
      StartsAreOffsets(a, starts, n - 1);
      assert BlockShown(a, n - 1, starts[n - 1], starts[n]);
      CycleOfEvent(a, n - 1);
      if HasCycle(a, n - 1) {
        var c := CycleAt(a, n - 1);
        ShownBlockAt(a, c, starts[n - 1] + 2, starts[n]);
        CycleBlockIs(a, c);
      }
    }
  }

  lemma EventShownMatches(a: Artifact, k: nat, p: nat)
    requires Unambiguous(a) && k < |a.records| == |a.decisions| && EventShown(a, k, p)
    ensures EntryMatches(a, a.entries[p], EventSlots(a, k)[0]) && EntryMatches(a, a.entries[p + 1], EventSlots(a, k)[1])
  {
    hide Unambiguous, CompleteRecords;
    CompleteLookUp(a);
  }

  /** The entries shown for event `k` are its slots. */
  lemma ShownMatches(a: Artifact, starts: seq<nat>, k: nat)
    requires ComponentsOk(a) && Unambiguous(a) && LedgerShown(a, starts) && k < |a.records|
    requires OutcomesPresent(a, k + 1) && starts[k] == Offset(a, k) && starts[k + 1] == Offset(a, k + 1) <= |a.entries|
    ensures forall j | 0 <= j < |Block(a, k)| :: Offset(a, k) + j < |a.entries|
              && EntryMatches(a, a.entries[Offset(a, k) + j], Block(a, k)[j])
    ensures |Block(a, k)| == Offset(a, k + 1) - Offset(a, k)
  {
    hide Unambiguous, BySequence, ByCycle, ByIntervention, EventShown, CycleAndOutcomeShown, CycleBlock, EventSlots, EntryMatches, CompleteRecords;
    assert BlockShown(a, k, starts[k], starts[k + 1]);
    CycleOfEvent(a, k);
    EventShownMatches(a, k, starts[k]);
    SlotCount(a, k);
    if HasCycle(a, k) {
      var c := CycleAt(a, k);
      ShownBlockAt(a, c, starts[k] + 2, starts[k + 1]);
      BlockHasCycle(a, k);
      forall j | 0 <= j < |Block(a, k)|
        ensures EntryMatches(a, a.entries[Offset(a, k) + j], Block(a, k)[j])
      {
        if j >= 2 {
          assert EntryMatches(a, a.entries[starts[k] + 2 + (j - 2)], CycleBlock(a, c)[j - 2]);
        }
      }
    }
  }

  lemma {:induction false} ShownUpTo(a: Artifact, starts: seq<nat>, n: nat)
    requires ComponentsOk(a) && Unambiguous(a) && LedgerShown(a, starts) && n <= |a.records|
    requires OutcomesPresent(a, n) && Offset(a, n) <= |a.entries|
    ensures |LayoutUpTo(a, n)| == Offset(a, n)
    ensures forall i | 0 <= i < Offset(a, n) :: EntryMatches(a, a.entries[i], LayoutUpTo(a, n)[i])
  {
    hide Unambiguous, EntryMatches, Block, BlockShown, HasCycle;
    OffsetIsLength(a, n);
    if n > 0 {
      ShownUpTo(a, starts, n - 1);
      StartsAreOffsets(a, starts, n - 1);
      StartsAreOffsets(a, starts, n);
      ShownMatches(a, starts, n - 1);
      var before := Offset(a, n - 1);
      forall i | 0 <= i < Offset(a, n)
        ensures EntryMatches(a, a.entries[i], LayoutUpTo(a, n)[i])
      {
        if i >= before {
          assert EntryMatches(a, a.entries[before + (i - before)], Block(a, n - 1)[i - before]);
        }
      }
    }
  }

  lemma ShownLayout(a: Artifact, starts: seq<nat>)
    requires ComponentsOk(a) && Unambiguous(a) && LedgerShown(a, starts)
    ensures LayoutMatches(a)
    ensures forall k | 0 <= k <= |a.records| :: starts[k] == Offset(a, k)
  {
    hide Unambiguous, EntryMatches, Block, BlockShown, HasCycle, OutcomesPresent, Offset, LayoutUpTo;
    forall k | 0 <= k <= |a.records|
      ensures starts[k] == Offset(a, k)
    {
      StartsAreOffsets(a, starts, k);
    }
    StartsAreOffsets(a, starts, |a.records|);
    ShownUpTo(a, starts, |a.records|);
  }

  function Offsets(a: Artifact): (starts: seq<nat>)
    ensures |starts| == |a.records| + 1
    ensures forall k | 0 <= k <= |a.records| :: starts[k] == Offset(a, k)
  {
    seq(|a.records| + 1, k requires 0 <= k <= |a.records| => Offset(a, k))
  }

  lemma AcceptedIsShown(a: Artifact)
    requires ComponentsOk(a) && LedgerAccepted(a)
    ensures LedgerShown(a, Offsets(a)) && WindowsShown(a, Offsets(a))
  {
    hide BlockShown, LedgerAccepted, Offset;
    LastOffset(a);
    forall k | 0 <= k < |a.records|
      ensures BlockShown(a, k, Offsets(a)[k], Offsets(a)[k + 1])
    {
      BlockIsShown(a, k);
    }
    forall w <- a.windows
      ensures WindowShown(a, Offsets(a), w)
    {
      WindowIsShown(a, w);
    }
  }

  lemma LastOffset(a: Artifact)
    requires ComponentsOk(a) && LedgerAccepted(a)
    ensures Offset(a, 0) == 0 && Offset(a, |a.records|) == |a.entries|
  {
    hide Chained, HeadSealed, Unambiguous, CompleteKeys, CompleteRecords, EntryMatches, BindingsOk;
    OffsetIsLength(a, |a.records|);
  }

  lemma WindowIsShown(a: Artifact, w: WindowBinding)
    requires ComponentsOk(a) && LedgerAccepted(a) && w in a.windows
    ensures WindowShown(a, Offsets(a), w)
  {
    hide LedgerAccepted, LayoutMatches, Offset, TraceEntry;
    AcceptedParts(a);
    TraceEntryIs(a, w.boundary - 1);
  }

  lemma ShownIsBound(a: Artifact, starts: seq<nat>)
    requires ComponentsOk(a) && Unambiguous(a) && LedgerShown(a, starts) && LayoutMatches(a) && WindowsShown(a, starts)
    requires forall k | 0 <= k <= |a.records| :: starts[k] == Offset(a, k)
    ensures BindingsOk(a)
  {
    hide Unambiguous, LayoutUpTo, EntryMatches, CycleAndOutcomeShown, OutcomesPresent;
    forall k | 0 <= k < |a.records|
      ensures Bound(a.records[k], TraceEntry(a, k))
    {
      assert BlockShown(a, k, starts[k], starts[k + 1]);
    }
    assert forall w <- a.windows :: WindowShown(a, starts, w);
  }

  /** The keys of decision and outcome entries are those of the artifact's decisions and outcomes. */
  lemma KeysIff(a: Artifact)
    requires ComponentsOk(a) && Unambiguous(a) && LayoutMatches(a)
    ensures CompleteKeys(a.entries) == CompleteRecords(a).Keys <==> NoSpareOutcome(a)
  {
    hide Unambiguous, LayoutMatches, CompleteRecords;
    CompleteLookUp(a);
    DecisionsShown(a);
    KeysAreComplete(a);
    if NoSpareOutcome(a) {
      forall key <- CompleteRecords(a)
        ensures key in CompleteKeys(a.entries)
      {
        CompleteSource(a, key);
      }
    } else {
      var o :| o in a.outcomes && !exists e <- a.entries :: e.key == InterventionOutcome(o.id) && e.kind == OutcomeKind;
      assert InterventionOutcome(o.id) in CompleteRecords(a);
      OutcomeKinds(a);
      assert InterventionOutcome(o.id) !in CompleteKeys(a.entries);
    }
  }

  lemma CompleteSource(a: Artifact, key: Key)
    requires key in CompleteRecords(a)
    ensures (exists i | 0 <= i < |a.decisions| :: key == InvocationDecision(a.decisions[i].id))
         || (exists o <- a.outcomes :: key == InterventionOutcome(o.id))
  {
    var list := CompleteList(a);
    IndexIs(list, (c: Complete) => c.key);
    var c := CompleteRecords(a)[key];
    var i :| 0 <= i < |list| && list[i] == c;
    if i >= |a.decisions| {
      assert a.outcomes[i - |a.decisions|] in a.outcomes;
    }
  }

  lemma {:induction false} BlockOf(a: Artifact, n: nat, i: nat) returns (k: nat)
    requires n <= |a.records| && i < Offset(a, n)
    ensures k < n && Offset(a, k) <= i < Offset(a, k + 1)
  {
    if i >= Offset(a, n - 1) {
      k := n - 1;
    } else {
      k := BlockOf(a, n - 1, i);
    }
  }

  /** The slot that entry `i` has to match, in its block. */
  lemma EntrySlot(a: Artifact, i: nat) returns (k: nat)
    requires ComponentsOk(a) && LayoutMatches(a) && i < |a.entries|
    ensures k < |a.records| && OutcomesPresent(a, k + 1) && Offset(a, k) <= i < Offset(a, k) + |Block(a, k)|
    ensures EntryMatches(a, a.entries[i], Block(a, k)[i - Offset(a, k)])
  {
    hide EntryMatches, Block, LayoutUpTo, HasCycle;
    OffsetIsLength(a, |a.records|);
    k := BlockOf(a, |a.records|, i);
    OutcomesUpTo(a, k + 1);
    BlockInLayout(a, k);
    SlotShown(a, k, i - Offset(a, k));
  }

  /** Slots of decisions and outcomes are keyed by a decision or an outcome of the artifact. */
  lemma SlotKinds(a: Artifact, k: nat, j: nat)
    requires k < |a.records| == |a.decisions| && OutcomesPresent(a, k + 1) && j < |Block(a, k)| && Unambiguous(a)
    ensures var slot := Block(a, k)[j];
            && (slot.kind == DecisionKind ==> slot.key in CompleteRecords(a) && slot.key.InvocationDecision?)
            && (slot.kind == OutcomeKind ==> slot.key in CompleteRecords(a) && slot.key.InterventionOutcome?)
  {
    hide Unambiguous, CompleteRecords, ByCycle, ByIntervention, CycleBlock, HasCycle;
    CompleteLookUp(a);
    CyclesLookUp(a);
    if HasCycle(a, k) {
      CycleBlockIs(a, CycleAt(a, k));
      BlockHasCycle(a, k);
      if j >= 2 {
        assert Block(a, k)[j - 2 + 2] == CycleBlock(a, CycleAt(a, k))[j - 2];
        assert j - 2 == 0 || j - 2 == 1 || j - 2 == 2 || j - 2 == 3 || j - 2 == |CycleBlock(a, CycleAt(a, k))| - 1
               || j - 2 == 4 || j - 2 == 5 || j - 2 == 6 || j - 2 == 7;
      }
    }
  }

  lemma KeysAreComplete(a: Artifact)
    requires ComponentsOk(a) && Unambiguous(a) && LayoutMatches(a)
    ensures CompleteKeys(a.entries) <= CompleteRecords(a).Keys
  {
    hide Unambiguous, LayoutMatches, CompleteRecords, Block;
    forall e <- a.entries | e.kind == DecisionKind || e.kind == OutcomeKind
      ensures e.key in CompleteRecords(a)
    {
      var i :| 0 <= i < |a.entries| && a.entries[i] == e;
      var k := EntrySlot(a, i);
      SlotKinds(a, k, i - Offset(a, k));
    }
  }

  lemma OutcomeKinds(a: Artifact)
    requires ComponentsOk(a) && Unambiguous(a) && LayoutMatches(a)
    ensures forall e <- a.entries | e.kind == DecisionKind :: !e.key.InterventionOutcome?
  {
    hide Unambiguous, LayoutMatches, CompleteRecords, Block;
    forall e <- a.entries | e.kind == DecisionKind
      ensures !e.key.InterventionOutcome?
    {
      var i :| 0 <= i < |a.entries| && a.entries[i] == e;
      var k := EntrySlot(a, i);
      SlotKinds(a, k, i - Offset(a, k));
    }
  }

  lemma DecisionsShown(a: Artifact)
    requires ComponentsOk(a) && LayoutMatches(a)
    ensures forall i | 0 <= i < |a.decisions| :: InvocationDecision(a.decisions[i].id) in CompleteKeys(a.entries)
  {
    hide LayoutMatches, CompleteRecords;
    forall k | 0 <= k < |a.decisions|
      ensures InvocationDecision(a.decisions[k].id) in CompleteKeys(a.entries)
    {
      DecisionShown(a, k);
    }
  }

  lemma DecisionShown(a: Artifact, k: nat)
    requires ComponentsOk(a) && LayoutMatches(a) && k < |a.decisions|
    ensures InvocationDecision(a.decisions[k].id) in CompleteKeys(a.entries)
  {
    hide CompleteRecords, LayoutUpTo;
    OutcomesUpTo(a, k + 1);
    SlotCount(a, k);
    SlotShown(a, k, 1);
    assert a.entries[Offset(a, k) + 1] in a.entries;
  }

  /**
   * The pass accepts a ledger exactly when every entry is sealed to the one
   * before it and the head to the last; when cycles, deliveries, decisions and
   * outcomes are unambiguous; when its entries are, event by event, the ones
   * written out above and no others; when every outcome is among them; and when
   * every window is bound to the entry of its event.
   */
  lemma AcceptedIff(a: Artifact)
    requires ComponentsOk(a)
    ensures LedgerAccepted(a) <==>
      && SealsShown(a) && Distinct(a) && NoSpareOutcome(a)
      && exists starts :: LedgerShown(a, starts) && WindowsShown(a, starts)
  {
    hide SealsShown, Chained, HeadSealed, Distinct, Unambiguous, LedgerShown, WindowsShown, NoSpareOutcome, LayoutMatches, BindingsOk,
         CompleteKeys, CompleteRecords, Genuine;
    SealsIff(a);
    DistinctIff(a);
    if LedgerAccepted(a) {
      KeysIff(a);
      AcceptedIsShown(a);
    }
    if SealsShown(a) && Distinct(a) && NoSpareOutcome(a) && exists starts :: LedgerShown(a, starts) && WindowsShown(a, starts) {
      var starts :| LedgerShown(a, starts) && WindowsShown(a, starts);
      ShownLayout(a, starts);
      ShownIsBound(a, starts);
      KeysIff(a);
    }
  }
}
