/** Greedy grouping of a list. */
module GreedyPartition {
  // Contiguous groups, for any group test that is inherited by contiguous parts of
  // a group at the same group index.

  import opened Util

  /** Whether positions `from` to `to` may form the group with a given index. */
  type GroupPredicate = (nat, nat, nat) -> bool

  ghost predicate Hereditary(n: nat, ok: GroupPredicate) {
    forall g: nat, from: nat, to: nat, from': nat, to': nat ::
      from <= from' <= to' <= to <= n && ok(g, from, to) ==> ok(g, from', to')
  }

  /** Where group `g` starts when group `k` ends at `cuts[k]`. */
  function Start(cuts: seq<nat>, g: nat): nat
    requires g <= |cuts|
  {
    if g == 0 then 0 else cuts[g - 1]
  }

  /** The cut points of a contiguous partition of `n` events; no event at all is one empty group. */
  ghost predicate Partition(n: nat, cuts: seq<nat>) {
    && cuts != [] && cuts[|cuts| - 1] == n
    && (n == 0 ==> |cuts| == 1)
    && (n > 0 ==> cuts[0] > 0)
    && (forall i, j | 0 <= i < j < |cuts| :: cuts[i] < cuts[j])
  }

  ghost predicate GroupPasses(ok: GroupPredicate, cuts: seq<nat>, g: nat)
    requires g < |cuts|
  {
    ok(g, Start(cuts, g), cuts[g])
  }

  ghost predicate GroupIsFull(ok: GroupPredicate, cuts: seq<nat>, g: nat)
    requires g < |cuts|
  {
    !ok(g, Start(cuts, g), cuts[g] + 1)
  }

  ghost predicate Admissible(n: nat, ok: GroupPredicate, cuts: seq<nat>) {
    Partition(n, cuts) && forall g | 0 <= g < |cuts| :: GroupPasses(ok, cuts, g)
  }

  /** No group could have taken the event that opened the next one. */
  ghost predicate Maximal(ok: GroupPredicate, cuts: seq<nat>) {
    forall g | 0 <= g < |cuts| - 1 :: GroupIsFull(ok, cuts, g)
  }

  /** After any number of groups, the maximal partition has taken at least as many events as any other. */
  lemma {:induction false} StaysAhead(n: nat, ok: GroupPredicate, greedy: seq<nat>, other: seq<nat>, g: nat)
    requires Hereditary(n, ok)
    requires Admissible(n, ok, greedy) && Maximal(ok, greedy)
    requires Admissible(n, ok, other)
    requires g < |greedy| && g < |other|
    ensures other[g] <= greedy[g]
  {
    if g > 0 {
      StaysAhead(n, ok, greedy, other, g - 1);
    }
    assert GroupPasses(ok, other, g);
    assert g < |greedy| - 1 ==> GroupIsFull(ok, greedy, g);
  }

  /** Greedy grouping is optimal: no admissible partition has fewer groups. */
  lemma GreedyIsOptimal(n: nat, ok: GroupPredicate, greedy: seq<nat>, other: seq<nat>)
    requires Hereditary(n, ok)
    requires Admissible(n, ok, greedy) && Maximal(ok, greedy)
    requires Admissible(n, ok, other)
    ensures |greedy| <= |other|
  {
    if |other| < |greedy| {
      StaysAhead(n, ok, greedy, other, |other| - 1);
    }
  }

  /** A limit on the number of groups is exceeded exactly when no admissible partition meets it. */
  lemma LimitExceededIffUnavoidable(n: nat, ok: GroupPredicate, greedy: seq<nat>, limit: nat)
    requires Hereditary(n, ok)
    requires Admissible(n, ok, greedy) && Maximal(ok, greedy)
    ensures |greedy| > limit <==> forall other :: Admissible(n, ok, other) ==> |other| > limit
  {
    forall other | Admissible(n, ok, other)
      ensures |greedy| <= |other|
    {
      GreedyIsOptimal(n, ok, greedy, other);
    }
  }

  /** Maximality pins the partition down: two maximal admissible partitions are the same. */
  lemma MaximalIsUnique(n: nat, ok: GroupPredicate, a: seq<nat>, b: seq<nat>)
    requires Hereditary(n, ok)
    requires Admissible(n, ok, a) && Maximal(ok, a)
    requires Admissible(n, ok, b) && Maximal(ok, b)
    ensures a == b
  {
    GreedyIsOptimal(n, ok, a, b);
    GreedyIsOptimal(n, ok, b, a);
    forall g | 0 <= g < |a|
      ensures a[g] == b[g]
    {
      StaysAhead(n, ok, a, b, g);
      StaysAhead(n, ok, b, a, g);
    }
  }

  // ----- the grouping loop's state -----

  /** Group `g` of the partition is this list of events. */
  ghost predicate GroupIs<T>(events: seq<T>, cuts: seq<nat>, g: nat, group: seq<T>)
    requires g < |cuts|
  {
    Start(cuts, g) <= cuts[g] <= |events| && group == events[Start(cuts, g)..cuts[g]]
  }

  /** After `i` events: closed groups that pass and are full, and a current group that passes. */
  ghost predicate Grouping<T>(ok: GroupPredicate, events: seq<T>, i: nat, groups: seq<seq<T>>, cuts: seq<nat>, current: seq<T>) {
    && i <= |events| && |groups| == |cuts|
    && (cuts != [] ==> 0 < cuts[0] && cuts[|cuts| - 1] < i)
    && (forall g, h | 0 <= g < h < |cuts| :: cuts[g] < cuts[h])
    && (forall g | 0 <= g < |cuts| :: GroupPasses(ok, cuts, g) && GroupIsFull(ok, cuts, g))
    && (forall g | 0 <= g < |cuts| :: GroupIs(events, cuts, g, groups[g]))
    && current == events[Start(cuts, |cuts|)..i]
    && ok(|cuts|, Start(cuts, |cuts|), i)
  }

  lemma GroupingStarts<T>(ok: GroupPredicate, events: seq<T>)
    requires ok(0, 0, 0)
    ensures Grouping(ok, events, 0, [], [], [])
  {
  }

  lemma GroupingBounds<T>(ok: GroupPredicate, events: seq<T>, i: nat, groups: seq<seq<T>>, cuts: seq<nat>, current: seq<T>)
    requires Grouping(ok, events, i, groups, cuts, current)
    ensures |groups| == |cuts| && Start(cuts, |cuts|) <= i <= |events|
    ensures |current| == i - Start(cuts, |cuts|)
    ensures i < |events| ==> current + [events[i]] == events[Start(cuts, |cuts|)..i + 1]
  {
  }

  lemma GroupingJoins<T>(ok: GroupPredicate, events: seq<T>, i: nat, groups: seq<seq<T>>, cuts: seq<nat>, current: seq<T>)
    requires i < |events| && Grouping(ok, events, i, groups, cuts, current)
    requires ok(|cuts|, Start(cuts, |cuts|), i + 1)
    ensures Grouping(ok, events, i + 1, groups, cuts, current + [events[i]])
  {
  }

  /** Closing one more group changes nothing for the groups before it. */
  lemma CutsExtend<T>(ok: GroupPredicate, events: seq<T>, groups: seq<seq<T>>, cuts: seq<nat>, i: nat, current: seq<T>)
    requires |groups| == |cuts|
    requires forall g | 0 <= g < |cuts| :: GroupIs(events, cuts, g, groups[g])
    ensures forall g | 0 <= g < |cuts| :: GroupIs(events, cuts + [i], g, (groups + [current])[g])
    ensures forall g | 0 <= g < |cuts| ::
              && (GroupPasses(ok, cuts + [i], g) <==> GroupPasses(ok, cuts, g))
              && (GroupIsFull(ok, cuts + [i], g) <==> GroupIsFull(ok, cuts, g))
    ensures Start(cuts + [i], |cuts|) == Start(cuts, |cuts|)
  {
    forall g | 0 <= g < |cuts|
      ensures GroupIs(events, cuts + [i], g, (groups + [current])[g])
    {
      assert GroupIs(events, cuts, g, groups[g]);
    }
  }

  lemma GroupingCloses<T>(ok: GroupPredicate, events: seq<T>, i: nat, groups: seq<seq<T>>, cuts: seq<nat>, current: seq<T>)
    requires i < |events| && Grouping(ok, events, i, groups, cuts, current)
    requires |current| > 0 && !ok(|cuts|, Start(cuts, |cuts|), i + 1) && ok(|cuts| + 1, i, i + 1)
    ensures Grouping(ok, events, i + 1, groups + [current], cuts + [i], [events[i]])
  {
    CutsExtend(ok, events, groups, cuts, i, current);
    SingletonSlice(events, i);
  }

  lemma GroupingEnds<T>(ok: GroupPredicate, events: seq<T>, groups: seq<seq<T>>, cuts: seq<nat>, current: seq<T>)
    requires Grouping(ok, events, |events|, groups, cuts, current)
    ensures Admissible(|events|, ok, cuts + [|events|]) && Maximal(ok, cuts + [|events|])
    ensures forall g | 0 <= g <= |cuts| :: GroupIs(events, cuts + [|events|], g, (groups + [current])[g])
  {
    CutsExtend(ok, events, groups, cuts, |events|, current);
  }
}
