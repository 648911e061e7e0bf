/** Call receipts and their groups. */
module CallGroups {
  // The validator picks the receipts of a group by membership, the component's
  // own check by position; on ordered groups the two agree.

  import opened Util

  datatype Call = Call(receiptDigest: string, cycleID: string, modelCallIndex: nat, attempt: nat)

  datatype Group = Group(ordinal: nat, cycleID: string, receiptDigests: seq<string>)

  function Digests(calls: seq<Call>): (digests: seq<string>)
    ensures |digests| == |calls| && forall i | 0 <= i < |calls| :: digests[i] == calls[i].receiptDigest
  {
    seq(|calls|, i requires 0 <= i < |calls| => calls[i].receiptDigest)
  }

  /** The receipt digests of the first `n` groups, one group after the other. */
  function Grouped(groups: seq<Group>, n: nat): seq<string>
    requires n <= |groups|
  {
    if n == 0 then [] else Grouped(groups, n - 1) + groups[n - 1].receiptDigests
  }

  /** Where group `n` begins. */
  function Offset(groups: seq<Group>, n: nat): nat
    requires n <= |groups|
  {
    if n == 0 then 0 else Offset(groups, n - 1) + |groups[n - 1].receiptDigests|
  }

  /** The receipts of a group, each named for its cycle and numbered from zero, at the first attempt. */
  predicate SliceOk(group: Group, slice: seq<Call>) {
    && |slice| > 0
    && forall i | 0 <= i < |slice| ::
         slice[i].cycleID == group.cycleID && slice[i].modelCallIndex == i && slice[i].attempt == 0
  }

  /** The component's invariant, its identities and the grounding fields aside. */
  ghost predicate Ordered(groups: seq<Group>, calls: seq<Call>) {
    && NoRepeats(Digests(calls))
    && Grouped(groups, |groups|) == Digests(calls)
    && (forall g | 0 <= g < |groups| :: groups[g].ordinal == g + 1)
    && (forall g | 0 <= g < |groups| :: GroupOk(groups, calls, g))
  }

  predicate GroupOk(groups: seq<Group>, calls: seq<Call>, g: nat)
    requires g < |groups|
  {
    Offset(groups, g) + |groups[g].receiptDigests| <= |calls| && SliceOk(groups[g], SliceOf(groups, calls, g))
  }

  function SliceOf(groups: seq<Group>, calls: seq<Call>, g: nat): seq<Call>
    requires g < |groups| && Offset(groups, g) + |groups[g].receiptDigests| <= |calls|
  {
    calls[Offset(groups, g)..Offset(groups, g) + |groups[g].receiptDigests|]
  }

  /** The receipts whose digest is among `digests`, in their own order. */
  function Members(calls: seq<Call>, digests: seq<string>): seq<Call> {
    if |calls| == 0 then []
    else
      var front, last := calls[..|calls| - 1], calls[|calls| - 1];
      Members(front, digests) + if last.receiptDigest in digests then [last] else []
  }

  method GroupedCalls(calls: seq<Call>, group: Group) returns (grouped: seq<Call>)
    ensures grouped == Members(calls, group.receiptDigests)
  {
    grouped := [];
    var i := 0;
    while i < |calls|
      invariant i <= |calls| && grouped == Members(calls[..i], group.receiptDigests)
    {
      assert calls[..i + 1][..i] == calls[..i];
      if calls[i].receiptDigest in group.receiptDigests {
        grouped := grouped + [calls[i]];
      }
      i := i + 1;
    }
    WholeSlice(calls);
  }

  /** The loop of `requests_and_receipts_are_ordered` over its groups, an offset running along. */
  method GroupsCover(groups: seq<Group>, calls: seq<Call>) returns (ok: bool)
    requires Grouped(groups, |groups|) == Digests(calls)
    ensures ok <==> forall g | 0 <= g < |groups| :: GroupOk(groups, calls, g)
  {
    hide SliceOk, Grouped;
    var offset := 0;
    var g := 0;
    while g < |groups|
      invariant g <= |groups| && offset == Offset(groups, g)
      invariant forall j | 0 <= j < g :: GroupOk(groups, calls, j)
    {
      GroupFits(groups, calls, g);
      var grouped := calls[offset..offset + |groups[g].receiptDigests|];
      if !SliceOk(groups[g], grouped) {
        assert !GroupOk(groups, calls, g);
        return false;
      }
      offset := offset + |grouped|;
      g := g + 1;
    }
    return true;
  }

  /** Acceptance, receipt by receipt: each group is not empty, and its receipts are its cycle's, numbered from zero, first attempts. */
  lemma GroupOkIs(groups: seq<Group>, calls: seq<Call>, g: nat)
    requires g < |groups|
    ensures GroupOk(groups, calls, g) <==>
      var from, n := Offset(groups, g), |groups[g].receiptDigests|;
      && 0 < n && from + n <= |calls|
      && forall i | from <= i < from + n ::
           calls[i].cycleID == groups[g].cycleID && calls[i].modelCallIndex == i - from && calls[i].attempt == 0
  {
    hide Offset;
    var from, n := Offset(groups, g), |groups[g].receiptDigests|;
    if from + n <= |calls| {
      var slice := SliceOf(groups, calls, g);
      assert forall i | from <= i < from + n :: slice[i - from] == calls[i];
      assert forall i | 0 <= i < n :: slice[i] == calls[from + i];
    }
  }

  lemma {:induction false} GroupedLength(groups: seq<Group>, n: nat)
    requires n <= |groups|
    ensures |Grouped(groups, n)| == Offset(groups, n)
  {
    if n > 0 {
      GroupedLength(groups, n - 1);
    }
  }

  lemma {:induction false} OffsetsGrow(groups: seq<Group>, m: nat, n: nat)
    requires m <= n <= |groups|
    ensures Offset(groups, m) <= Offset(groups, n)
    decreases n
  {
    if m < n {
      OffsetsGrow(groups, m, n - 1);
    }
  }

  lemma GroupFits(groups: seq<Group>, calls: seq<Call>, g: nat)
    requires g < |groups| && Grouped(groups, |groups|) == Digests(calls)
    ensures Offset(groups, g + 1) == Offset(groups, g) + |groups[g].receiptDigests| <= |calls|
  {
    hide Grouped;
    GroupedLength(groups, |groups|);
    OffsetsGrow(groups, g + 1, |groups|);
  }

  /** The digests of group `g` stand from its offset on. */
  lemma {:induction false} GroupedAt(groups: seq<Group>, n: nat, g: nat, j: nat)
    requires g < n <= |groups| && j < |groups[g].receiptDigests|
    ensures Offset(groups, g) + j < |Grouped(groups, n)|
    ensures Grouped(groups, n)[Offset(groups, g) + j] == groups[g].receiptDigests[j]
    decreases n
  {
    GroupedLength(groups, n - 1);
    if g < n - 1 {
      GroupedAt(groups, n - 1, g, j);
    }
  }

  lemma {:induction false} MembersConcat(a: seq<Call>, b: seq<Call>, digests: seq<string>)
    ensures Members(a + b, digests) == Members(a, digests) + Members(b, digests)
    decreases |b|
  {
    if |b| == 0 {
      assert a + b == a;
    } else {
      assert (a + b)[..|a + b| - 1] == a + b[..|b| - 1];
      MembersConcat(a, b[..|b| - 1], digests);
    }
  }

  lemma {:induction false} NoMembers(calls: seq<Call>, digests: seq<string>)
    requires forall c <- calls :: c.receiptDigest !in digests
    ensures Members(calls, digests) == []
  {
    if |calls| > 0 {
      assert calls[|calls| - 1] in calls;
      NoMembers(calls[..|calls| - 1], digests);
    }
  }

  lemma {:induction false} AllMembers(calls: seq<Call>, digests: seq<string>)
    requires forall c <- calls :: c.receiptDigest in digests
    ensures Members(calls, digests) == calls
  {
    if |calls| > 0 {
      assert calls[|calls| - 1] in calls;
      AllMembers(calls[..|calls| - 1], digests);
    }
  }

  /** The digests of a group are those at its positions, and nowhere else. */
  lemma GroupAt(groups: seq<Group>, calls: seq<Call>, g: nat, i: nat)
    requires NoRepeats(Digests(calls)) && Grouped(groups, |groups|) == Digests(calls) && g < |groups| && i < |calls|
    ensures calls[i].receiptDigest in groups[g].receiptDigests
       <==> Offset(groups, g) <= i < Offset(groups, g) + |groups[g].receiptDigests|
    ensures Offset(groups, g) + |groups[g].receiptDigests| <= |calls|
  {
    hide Grouped, Offset, NoRepeats;
    GroupFits(groups, calls, g);
    var from, own := Offset(groups, g), groups[g].receiptDigests;
    if calls[i].receiptDigest in own {
      var j :| 0 <= j < |own| && own[j] == calls[i].receiptDigest;
      GroupedAt(groups, |groups|, g, j);
      SameDigest(calls, from + j, i);
    }
    if from <= i < from + |own| {
      GroupedAt(groups, |groups|, g, i - from);
    }
  }

  lemma SameDigest(calls: seq<Call>, i: nat, j: nat)
    requires NoRepeats(Digests(calls)) && i < |calls| && j < |calls|
    requires calls[i].receiptDigest == calls[j].receiptDigest
    ensures i == j
  {
    assert Digests(calls)[i] == Digests(calls)[j];
  }

  /** Picking a group's receipts by membership gives the contiguous slice at its position. */
  lemma MembershipIsSlice(groups: seq<Group>, calls: seq<Call>, g: nat)
    requires Ordered(groups, calls) && g < |groups|
    ensures GroupOk(groups, calls, g) && Members(calls, groups[g].receiptDigests) == SliceOf(groups, calls, g)
    ensures SliceOk(groups[g], Members(calls, groups[g].receiptDigests))
  {
    hide Members, Grouped, NoRepeats, SliceOk;
    assert GroupOk(groups, calls, g);
    var from, digests := Offset(groups, g), groups[g].receiptDigests;
    var to := from + |digests|;
    forall i | 0 <= i < |calls|
      ensures calls[i].receiptDigest in digests <==> from <= i < to
    {
      GroupAt(groups, calls, g, i);
    }
    var before, own, after := calls[..from], calls[from..to], calls[to..];
    assert calls == before + own + after;
    NoMembers(before, digests);
    AllMembers(own, digests);
    NoMembers(after, digests);
    MembersConcat(before, own, digests);
    MembersConcat(before + own, after, digests);
  }

  /** Every receipt is in the slice of exactly one group: the groups partition the receipts. */
  lemma GroupsPartition(groups: seq<Group>, calls: seq<Call>, i: nat) returns (g: nat)
    requires Ordered(groups, calls) && i < |calls|
    ensures g < |groups| && calls[i].receiptDigest in groups[g].receiptDigests
    ensures forall h | 0 <= h < |groups| && calls[i].receiptDigest in groups[h].receiptDigests :: h == g
  {
    hide GroupOk, NoRepeats, Grouped, Offset;
    GroupedLength(groups, |groups|);
    g := GroupHolding(groups, |groups|, i);
    GroupAt(groups, calls, g, i);
    forall h | 0 <= h < |groups| && calls[i].receiptDigest in groups[h].receiptDigests
      ensures h == g
    {
      GroupAt(groups, calls, h, i);
      GroupsApart(groups, g, h);
    }
  }

  lemma OffsetStep(groups: seq<Group>, g: nat)
    requires g < |groups|
    ensures Offset(groups, g + 1) == Offset(groups, g) + |groups[g].receiptDigests|
  {
  }

  lemma GroupsApart(groups: seq<Group>, g: nat, h: nat)
    requires g < |groups| && h < |groups|
    ensures g < h ==> Offset(groups, g) + |groups[g].receiptDigests| <= Offset(groups, h)
    ensures h < g ==> Offset(groups, h) + |groups[h].receiptDigests| <= Offset(groups, g)
  {
    hide Offset;
    OffsetStep(groups, g);
    OffsetStep(groups, h);
    if g < h {
      OffsetsGrow(groups, g + 1, h);
    } else if h < g {
      OffsetsGrow(groups, h + 1, g);
    }
  }

  lemma {:induction false} GroupHolding(groups: seq<Group>, n: nat, i: nat) returns (g: nat)
    requires n <= |groups| && i < Offset(groups, n)
    ensures g < n && Offset(groups, g) <= i < Offset(groups, g) + |groups[g].receiptDigests|
    decreases n
  {
    if i < Offset(groups, n - 1) {
      g := GroupHolding(groups, n - 1, i);
    } else {
      g := n - 1;
    }
  }
}
