/** Replay of the memory-bank counts of committed cycles. */
module MemoryReplay {
  // A cycle attestation says only how many records the cycle created and
  // invalidated and whether it replaced the private status.  Which records were
  // invalidated is not known, so many concrete banks fit one history.  The
  // validator keeps one number for each value of "a private status is active".

  import opened Util

  datatype Cycle = Cycle(creates: nat, updates: nat, invalidations: nat, replacesPrivate: bool)

  /** The records still active, which of them is the private status, and how many were ever created. */
  datatype Bank = Bank(active: set<nat>, private: Option<nat>, created: nat)

  const EMPTY_BANK := Bank({}, None, 0)

  ghost predicate BankOk(b: Bank) {
    && (forall r <- b.active :: r < b.created)
    && (b.private.Some? ==> b.private.value in b.active)
  }

  function Issues(c: Cycle): nat {
    c.creates + if c.replacesPrivate then 1 else 0
  }

  function Fresh(from: nat, count: nat): (ids: set<nat>)
    ensures forall r :: r in ids <==> from <= r < from + count
    ensures |ids| == count
  {
    if count == 0 then {} else Fresh(from, count - 1) + {from + count - 1}
  }

  /** The bank after a cycle that invalidates exactly the records in `gone`. */
  function After(b: Bank, c: Cycle, gone: set<nat>): Bank {
    var superseded := if c.replacesPrivate && b.private.Some? then {b.private.value} else {};
    Bank(
      (b.active - gone - superseded) + Fresh(b.created, Issues(c)),
      if c.replacesPrivate then Some(b.created + c.creates)
      else if b.private.Some? && b.private.value in gone then None
      else b.private,
      b.created + Issues(c))
  }

  /** `gone` is a choice of records the cycle may invalidate; a replaced private status is not touched twice. */
  ghost predicate MayInvalidate(b: Bank, c: Cycle, gone: set<nat>) {
    && gone <= b.active
    && |gone| == c.invalidations
    && (c.replacesPrivate && b.private.Some? ==> b.private.value !in gone)
  }

  ghost predicate Applies(b: Bank, c: Cycle, b': Bank) {
    exists gone :: MayInvalidate(b, c, gone) && b' == After(b, c, gone)
  }

  /** Some concrete history through all the cycles, from the empty bank, ends in `b`. */
  ghost predicate Reachable(cycles: seq<Cycle>, b: Bank) {
    if cycles == [] then b == EMPTY_BANK
    else
      var front, c := cycles[..|cycles| - 1], cycles[|cycles| - 1];
      exists a :: Reachable(front, a) && Applies(a, c, b)
  }

  /** Where one kept count can go: the count after the cycle if the private flag ends up as `to`. */
  function Move(from: bool, active: nat, c: Cycle, to: bool): Option<nat> {
    if c.replacesPrivate then
      if !to then None
      else if !from then
        if c.invalidations <= active then Some(active - c.invalidations + c.creates + 1) else None
      else
        if c.invalidations + 1 <= active then Some(active - c.invalidations + c.creates) else None
    else if !from then
      if !to && c.invalidations <= active then Some(active - c.invalidations + c.creates) else None
    else if to then
      if c.invalidations <= active && (c.invalidations == 0 || c.invalidations < active)
      then Some(active - c.invalidations + c.creates) else None
    else
      if 1 <= c.invalidations <= active then Some(active - c.invalidations + c.creates) else None
  }

  function MoveKept(kept: Option<nat>, from: bool, c: Cycle, to: bool): Option<nat> {
    if kept.Some? then Move(from, kept.value, c, to) else None
  }

  /** `next_active[flag] = max(next_active.get(flag, -1), count)` for an offered count. */
  function Best(kept: Option<nat>, offered: Option<nat>): Option<nat> {
    if offered.None? then kept
    else if kept.None? then offered
    else Some(Max(kept.value, offered.value))
  }

  /** The count kept for a flag after all the cycles, if any is. */
  function Kept(cycles: seq<Cycle>, flag: bool): Option<nat> {
    if cycles == [] then if flag then None else Some(0)
    else
      var front, c := cycles[..|cycles| - 1], cycles[|cycles| - 1];
      Best(MoveKept(Kept(front, false), false, c, flag), MoveKept(Kept(front, true), true, c, flag))
  }

  function Issued(cycles: seq<Cycle>): nat {
    if cycles == [] then 0
    else Issued(cycles[..|cycles| - 1]) + Issues(cycles[|cycles| - 1])
  }

  // ----- cardinalities -----

  lemma {:induction false} SubsetOfSize(s: set<nat>, n: nat) returns (t: set<nat>)
    requires n <= |s|
    ensures t <= s && |t| == n
  {
    if n == 0 {
      t := {};
    } else {
      var x :| x in s;
      t := SubsetOfSize(s - {x}, n - 1);
      t := t + {x};
    }
  }

  lemma SubsetSize(small: set<nat>, large: set<nat>)
    requires small <= large
    ensures |large - small| == |large| - |small|
    ensures |small| <= |large|
  {
    assert large == small + (large - small);
  }

  /** A cycle keeps `active` minus the invalidated and superseded records and adds the fresh ones. */
  lemma AfterCount(b: Bank, c: Cycle, gone: set<nat>)
    requires BankOk(b) && MayInvalidate(b, c, gone)
    ensures BankOk(After(b, c, gone))
    ensures var dropped := c.invalidations + if c.replacesPrivate && b.private.Some? then 1 else 0;
            dropped <= |b.active| && |After(b, c, gone).active| == |b.active| - dropped + Issues(c)
  {
    var superseded := if c.replacesPrivate && b.private.Some? then {b.private.value} else {};
    var rest := b.active - gone - superseded;
    SubsetSize(gone, b.active);
    SubsetSize(superseded, b.active - gone);
    assert rest !! Fresh(b.created, Issues(c));
    assert |rest + Fresh(b.created, Issues(c))| == |rest| + Issues(c);
  }

  // ----- one cycle: `Move` is exactly what concrete banks can do -----

  lemma MoveIsAllowed(b: Bank, c: Cycle, b': Bank)
    requires BankOk(b) && Applies(b, c, b')
    ensures BankOk(b') && b'.created == b.created + Issues(c)
    ensures Move(b.private.Some?, |b.active|, c, b'.private.Some?) == Some(|b'.active|)
  {
    hide After, MayInvalidate;
    var gone :| MayInvalidate(b, c, gone) && b' == After(b, c, gone);
    AfterCount(b, c, gone);
    AfterFlag(b, c, gone);
    PrivateSurvives(b, c, gone);
  }

  lemma AfterFlag(b: Bank, c: Cycle, gone: set<nat>)
    requires MayInvalidate(b, c, gone)
    ensures After(b, c, gone).created == b.created + Issues(c)
    ensures After(b, c, gone).private.Some? <==>
            c.replacesPrivate || (b.private.Some? && b.private.value !in gone)
    ensures c.replacesPrivate && b.private.Some? ==> b.private.value !in gone
  {}

  /** Fewer than all records are invalidated when the private status is not among them. */
  lemma PrivateSurvives(b: Bank, c: Cycle, gone: set<nat>)
    requires BankOk(b) && MayInvalidate(b, c, gone)
    ensures b.private.Some? ==>
              if b.private.value in gone then 1 <= c.invalidations else c.invalidations < |b.active|
  {
    if b.private.Some? {
      var p := b.private.value;
      SubsetSize({p}, b.active);
      if p !in gone {
        SubsetSize(gone, b.active - {p});
      } else {
        SubsetSize({p}, gone);
      }
    }
  }

  /** Records to invalidate such that the private status stays, or goes, as asked. */
  lemma ChooseGone(b: Bank, c: Cycle, to: bool) returns (gone: set<nat>)
    requires BankOk(b) && Move(b.private.Some?, |b.active|, c, to).Some?
    ensures MayInvalidate(b, c, gone)
    ensures b.private.Some? ==> (to <==> b.private.value !in gone)
  {
    if b.private.None? {
      gone := SubsetOfSize(b.active, c.invalidations);
    } else {
      var p := b.private.value;
      SubsetSize({p}, b.active);
      gone := SubsetOfSize(b.active - {p}, if to then c.invalidations else c.invalidations - 1);
      if !to {
        gone := gone + {p};
      }
    }
  }

  lemma MoveIsPossible(b: Bank, c: Cycle, to: bool) returns (b': Bank)
    requires BankOk(b) && Move(b.private.Some?, |b.active|, c, to).Some?
    ensures Applies(b, c, b') && b'.private.Some? == to
    ensures Move(b.private.Some?, |b.active|, c, to) == Some(|b'.active|)
  {
    var gone := ChooseGone(b, c, to);
    b' := After(b, c, gone);
    AfterCount(b, c, gone);
  }

  /** More active records allow at least the same moves, with at least the same counts. */
  lemma MoreIsBetter(from: bool, few: nat, many: nat, c: Cycle, to: bool)
    requires few <= many && Move(from, few, c, to).Some?
    ensures Move(from, many, c, to).Some?
    ensures Move(from, few, c, to).value <= Move(from, many, c, to).value
  {
  }

  // ----- whole histories -----

  lemma {:induction false} ReachableBanks(cycles: seq<Cycle>, b: Bank)
    requires Reachable(cycles, b)
    ensures BankOk(b) && b.created == Issued(cycles)
  {
    if cycles != [] {
      var front, c := cycles[..|cycles| - 1], cycles[|cycles| - 1];
      var a :| Reachable(front, a) && Applies(a, c, b);
      ReachableBanks(front, a);
      MoveIsAllowed(a, c, b);
    }
  }

  lemma KeptCovers(cycles: seq<Cycle>, from: bool, active: nat, to: bool)
    requires cycles != []
    requires var kept := Kept(cycles[..|cycles| - 1], from);
             kept.Some? && active <= kept.value
    requires Move(from, active, cycles[|cycles| - 1], to).Some?
    ensures Kept(cycles, to).Some?
    ensures Move(from, active, cycles[|cycles| - 1], to).value <= Kept(cycles, to).value
  {
    MoreIsBetter(from, active, Kept(cycles[..|cycles| - 1], from).value, cycles[|cycles| - 1], to);
  }

  /** Every reachable bank is dominated by the kept count of its flag. */
  lemma {:induction false} Dominated(cycles: seq<Cycle>, b: Bank)
    requires Reachable(cycles, b)
    ensures Kept(cycles, b.private.Some?).Some? && |b.active| <= Kept(cycles, b.private.Some?).value
  {
    if cycles != [] {
      var front, c := cycles[..|cycles| - 1], cycles[|cycles| - 1];
      var a :| Reachable(front, a) && Applies(a, c, b);
      ReachableBanks(front, a);
      Dominated(front, a);
      MoveIsAllowed(a, c, b);
      KeptCovers(cycles, a.private.Some?, |a.active|, b.private.Some?);
    }
  }

  /** Every kept count is attained by a concrete history. */
  lemma {:induction false} Attained(cycles: seq<Cycle>, flag: bool) returns (b: Bank)
    requires Kept(cycles, flag).Some?
    ensures Reachable(cycles, b) && b.private.Some? == flag && |b.active| == Kept(cycles, flag).value
  {
    if cycles == [] {
      b := EMPTY_BANK;
    } else {
      var front, c := cycles[..|cycles| - 1], cycles[|cycles| - 1];
      var from := MoveKept(Kept(front, true), true, c, flag) == Kept(cycles, flag);
      var a := Attained(front, from);
      ReachableBanks(front, a);
      b := MoveIsPossible(a, c, flag);
    }
  }

  /** For each flag: a count is kept iff some history ends there, and it is the maximum over all of them. */
  lemma KeptIsExact(cycles: seq<Cycle>, flag: bool)
    ensures Kept(cycles, flag).Some? <==> exists b :: Reachable(cycles, b) && b.private.Some? == flag
    ensures Kept(cycles, flag).Some? ==>
              && (exists b :: Reachable(cycles, b) && b.private.Some? == flag
                              && |b.active| == Kept(cycles, flag).value)
              && (forall b :: Reachable(cycles, b) && b.private.Some? == flag
                              ==> |b.active| <= Kept(cycles, flag).value)
  {
    if Kept(cycles, flag).Some? {
      var b := Attained(cycles, flag);
    }
    forall b | Reachable(cycles, b) && b.private.Some? == flag
      ensures Kept(cycles, flag).Some? && |b.active| <= Kept(cycles, flag).value
    {
      Dominated(cycles, b);
    }
  }

  lemma {:induction false} PrefixReachable(cycles: seq<Cycle>, b: Bank, n: nat)
    requires Reachable(cycles, b) && n <= |cycles|
    ensures exists a :: Reachable(cycles[..n], a)
  {
    hide Applies;
    if n == |cycles| {
      assert cycles[..n] == cycles;
    } else {
      var front := cycles[..|cycles| - 1];
      var a :| Reachable(front, a) && Applies(a, cycles[|cycles| - 1], b);
      PrefixReachable(front, a, n);
      assert front[..n] == cycles[..n];
    }
  }

  lemma NothingKept(cycles: seq<Cycle>, n: nat)
    requires n <= |cycles|
    requires Kept(cycles[..n], false).None? && Kept(cycles[..n], true).None?
    ensures !exists b :: Reachable(cycles, b)
  {
    forall b | Reachable(cycles, b)
      ensures false
    {
      PrefixReachable(cycles, b, n);
      var a :| Reachable(cycles[..n], a);
      Dominated(cycles[..n], a);
    }
  }

  lemma SomethingKept(cycles: seq<Cycle>, flag: bool)
    requires Kept(cycles, flag).Some?
    ensures exists b :: Reachable(cycles, b)
    ensures forall b :: Reachable(cycles, b) ==> b.created == Issued(cycles)
  {
    var b := Attained(cycles, flag);
    forall b | Reachable(cycles, b)
      ensures b.created == Issued(cycles)
    {
      ReachableBanks(cycles, b);
    }
  }

  lemma FlagIn(flags: set<bool>)
    requires flags != {}
    ensures false in flags || true in flags
  {
    if false !in flags && true !in flags {
      forall flag: bool
        ensures flag !in flags
      {
        assert flag == false || flag == true;
      }
    }
  }

  // ----- the validator's loops -----

  method OfferMax(active: map<bool, nat>, flag: bool, count: nat) returns (updated: map<bool, nat>)
    ensures updated == active[flag := Best(Get(active, flag), Some(count)).value]
  {
    updated := active[flag := if flag in active && active[flag] > count then active[flag] else count];
  }

  /** The count kept for a flag after one cycle, from the counts kept before it. */
  function KeptAfter(kept: map<bool, nat>, c: Cycle, to: bool): Option<nat> {
    Best(MoveKept(Get(kept, false), false, c, to), MoveKept(Get(kept, true), true, c, to))
  }

  lemma OneMoreOffered(kept: map<bool, nat>, items: set<bool>, from: bool, c: Cycle, to: bool)
    requires items <= kept.Keys && from in items
    ensures KeptAfter(kept - (items - {from}), c, to)
         == Best(KeptAfter(kept - items, c, to), Move(from, kept[from], c, to))
  {
    assert Get(kept - items, from).None? && Get(kept - (items - {from}), from) == Some(kept[from]);
    assert Get(kept - (items - {from}), !from) == Get(kept - items, !from);
  }

  /** The loop over the kept counts of one cycle, in whatever order the dictionary yields them. */
  method NextFeasible(feasible: map<bool, nat>, cycle: Cycle) returns (next: map<bool, nat>)
    requires cycle.updates == 0
    ensures forall to :: Get(next, to) ==
                         Best(MoveKept(Get(feasible, false), false, cycle, to), MoveKept(Get(feasible, true), true, cycle, to))
  {
    var targets := cycle.updates + cycle.invalidations;
    var grown := cycle.creates - cycle.invalidations;
    next := map[];
    var items := feasible.Keys;
    while items != {}
      invariant items <= feasible.Keys
      invariant forall to :: Get(next, to) == KeptAfter(feasible - items, cycle, to)
    {
      assert false in items || true in items by {
        FlagIn(items);
      }
      var hasPrivate :| hasPrivate in items;
      var active := feasible[hasPrivate];
      ghost var before := next;
      if !cycle.replacesPrivate {
        if !hasPrivate && targets <= active {
          next := OfferMax(next, false, active + grown);
        }
        if hasPrivate {
          if targets <= active && (cycle.invalidations == 0 || cycle.invalidations < active) {
            next := OfferMax(next, true, active + grown);
          }
          if cycle.invalidations >= 1 && targets <= active {
            next := OfferMax(next, false, active + grown);
          }
        }
      } else if !hasPrivate && targets <= active {
        next := OfferMax(next, true, active + grown + 1);
      } else if hasPrivate {
        if targets + 1 <= active {
          next := OfferMax(next, true, active + grown);
        }
      }
      assert forall to :: Get(next, to) == Best(Get(before, to), Move(hasPrivate, active, cycle, to));
      forall to
        ensures KeptAfter(feasible - (items - {hasPrivate}), cycle, to) == Get(next, to)
      {
        OneMoreOffered(feasible, items, hasPrivate, cycle, to);
      }
      items := items - {hasPrivate};
    }
    assert feasible - items == feasible;
  }

  method ReplayedMemoryRecordCount(cycles: seq<Cycle>) returns (count: Option<nat>)
    ensures count.None? <==>
            (exists c <- cycles :: c.updates != 0) || !exists b :: Reachable(cycles, b)
    ensures count.Some? ==> forall b :: Reachable(cycles, b) ==> b.created == count.value
  {
    var expectedRecordCount := 0;
    var feasibleActive: map<bool, nat> := map[false := 0];
    ghost var flag := false;
    for i := 0 to |cycles|
      invariant forall k | 0 <= k < i :: cycles[k].updates == 0
      invariant forall to :: Get(feasibleActive, to) == Kept(cycles[..i], to)
      invariant flag in feasibleActive
      invariant expectedRecordCount == Issued(cycles[..i])
    {
      var cycle := cycles[i];
      assert cycles[..i + 1][..i] == cycles[..i];
      if cycle.updates != 0 {
        assert cycle in cycles;
        return None;
      }
      var nextActive := NextFeasible(feasibleActive, cycle);
      if nextActive == map[] {
        assert forall to :: Get(nextActive, to).None?;
        NothingKept(cycles, i + 1);
        return None;
      }
      assert false in nextActive || true in nextActive by {
        FlagIn(nextActive.Keys);
      }
      flag := true in nextActive;
      feasibleActive := nextActive;
      expectedRecordCount := expectedRecordCount + cycle.creates + if cycle.replacesPrivate then 1 else 0;
    }
    assert cycles[..|cycles|] == cycles;
    SomethingKept(cycles, flag);
    return Some(expectedRecordCount);
  }
}
