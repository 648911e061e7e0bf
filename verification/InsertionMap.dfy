/** Maps that remember insertion order. */
module InsertionMaps {
  // As JavaScript's `Map` does; and the least-recently-used table that the reducer
  // builds from it by deleting and setting again.

  import opened Util

  datatype InsertionMap<K, V> = InsertionMap(order: seq<K>, values: map<K, V>) {
    ghost predicate Valid() {
      NoRepeats(order) && (forall k <- order :: k in values) && (forall k <- values :: k in order)
    }

    function Set(k: K, v: V): InsertionMap<K, V> {
      InsertionMap(if k in values then order else order + [k], values[k := v])
    }

    function Delete(k: K): InsertionMap<K, V> {
      InsertionMap(Without(order, k), values - {k})
    }

    /** Deletes the oldest entries until there is room for one more. */
    function MakeRoom(capacity: nat): InsertionMap<K, V>
      decreases |order|
    {
      if |order| < capacity || |order| == 0 then this
      else InsertionMap(order[1..], values - {order[0]}).MakeRoom(capacity)
    }

    /** A read that counts as a use: the entry becomes the newest. */
    function Touch(k: K): InsertionMap<K, V> {
      if k in values then Delete(k).Set(k, values[k]) else this
    }

    /** A write that counts as a use, at the cost of the oldest entries. */
    function Remember(k: K, v: V, capacity: nat): InsertionMap<K, V> {
      Delete(k).MakeRoom(capacity).Set(k, v)
    }
  }

  lemma DeleteValid<K, V>(m: InsertionMap<K, V>, k: K)
    requires m.Valid()
    ensures m.Delete(k).Valid()
    ensures |m.Delete(k).order| == |m.order| - if k in m.values then 1 else 0
  {
    hide NoRepeats;
    WithoutIs(m.order, k);
    assert m.Delete(k).order == Without(m.order, k);
    forall j <- m.Delete(k).order
      ensures j in m.Delete(k).values
    {
      assert j in m.order && j != k;
    }
  }

  lemma SetValid<K, V>(m: InsertionMap<K, V>, k: K, v: V)
    requires m.Valid()
    ensures m.Set(k, v).Valid()
    ensures |m.Set(k, v).order| == |m.order| + if k in m.values then 0 else 1
  {
  }

  lemma TouchValid<K, V>(m: InsertionMap<K, V>, k: K)
    requires m.Valid()
    ensures m.Touch(k).Valid() && m.Touch(k).values == m.values && |m.Touch(k).order| == |m.order|
  {
    if k in m.values {
      DeleteValid(m, k);
      SetValid(m.Delete(k), k, m.values[k]);
    }
  }

  lemma {:induction false} MakeRoomIs<K, V>(m: InsertionMap<K, V>, capacity: nat)
    requires m.Valid() && capacity > 0 && |m.order| <= capacity
    ensures var r := m.MakeRoom(capacity);
            && r.Valid() && |r.order| < capacity
            && r == if |m.order| < capacity then m else InsertionMap(m.order[1..], m.values - {m.order[0]})
  {
    if |m.order| == capacity {
      var rest := InsertionMap(m.order[1..], m.values - {m.order[0]});
      assert forall k :: k in m.order <==> k == m.order[0] || k in m.order[1..];
      assert rest.MakeRoom(capacity) == rest;
    }
  }

  lemma RememberValid<K, V>(m: InsertionMap<K, V>, k: K, v: V, capacity: nat)
    requires m.Valid() && capacity > 0 && |m.order| <= capacity
    ensures var r := m.Remember(k, v, capacity);
            && r.Valid() && |r.order| <= capacity && k in r.values && r.values[k] == v
            && forall j | j in r.values && j != k :: j in m.values && r.values[j] == m.values[j]
  {
    DeleteValid(m, k);
    MakeRoomIs(m.Delete(k), capacity);
    SetValid(m.Delete(k).MakeRoom(capacity), k, v);
  }

  // ----- the table is a least-recently-used list -----

  /** The keys used, each once, in the order of their last use. */
  function UseOrder<K(==)>(uses: seq<K>): seq<K> {
    if |uses| == 0 then []
    else Without(UseOrder(uses[..|uses| - 1]), uses[|uses| - 1]) + [uses[|uses| - 1]]
  }

  /** Exactly the `capacity` keys used most recently, oldest first; all of them while they fit. */
  ghost predicate MostRecent<K>(order: seq<K>, uses: seq<K>, capacity: nat) {
    Newest(order, UseOrder(uses), capacity)
  }

  ghost predicate Newest<K>(order: seq<K>, all: seq<K>, capacity: nat) {
    && |order| <= |all| && order == all[|all| - |order|..]
    && (|order| == capacity || |order| == |all|)
  }

  lemma {:induction false} UseOrderDistinct<K>(uses: seq<K>)
    ensures NoRepeats(UseOrder(uses))
  {
    if |uses| > 0 {
      UseOrderDistinct(uses[..|uses| - 1]);
      WithoutIs(UseOrder(uses[..|uses| - 1]), uses[|uses| - 1]);
    }
  }

  lemma UseOrderSnoc<K>(uses: seq<K>, k: K)
    ensures UseOrder(uses + [k]) == Without(UseOrder(uses), k) + [k]
  {
    assert (uses + [k])[..|uses|] == uses;
  }

  lemma NewestIs<K>(front: seq<K>, back: seq<K>, capacity: nat)
    requires |back| == capacity || |front| == 0
    ensures Newest(back, front + back, capacity)
  {
  }

  lemma NotInFront<K>(older: seq<K>, order: seq<K>, k: K)
    requires NoRepeats(older + order) && k in order
    ensures k !in older
  {
    forall i, j | 0 <= i < |older| && 0 <= j < |order|
      ensures older[i] != order[j]
    {
      assert (older + order)[i] == older[i] && (older + order)[|older| + j] == order[j];
    }
  }

  /** Where a used key goes in the order of uses, whether or not it is among the newest. */
  lemma UseSplits<K>(older: seq<K>, order: seq<K>, k: K)
    requires NoRepeats(older + order)
    ensures k in order ==> Without(older + order, k) + [k] == older + (Without(order, k) + [k])
    ensures k !in order ==> Without(older + order, k) + [k] == Without(older, k) + (order + [k])
  {
    WithoutConcat(older, order, k);
    if k in order {
      NotInFront(older, order, k);
    } else {
      WithoutAbsent(order, k);
      if k !in older {
        WithoutAbsent(older, k);
      }
    }
  }

  /** Deleting and setting again, with or without evicting the oldest, keeps the most recent keys. */
  lemma UseKeepsMostRecent<K>(order: seq<K>, uses: seq<K>, k: K, capacity: nat)
    requires MostRecent(order, uses, capacity) && NoRepeats(order) && capacity > 0
    ensures var next := if k in order then Without(order, k) + [k]
                        else (if |order| == capacity then order[1..] else order) + [k];
            MostRecent(next, uses + [k], capacity)
  {
    hide UseOrder, NoRepeats, Without;
    var all := UseOrder(uses);
    var older := all[..|all| - |order|];
    assert all == older + order;
    UseOrderDistinct(uses);
    UseOrderSnoc(uses, k);
    UseSplits(older, order, k);
    WithoutIs(order, k);
    if k !in order {
      NewestPlus(older, order, k, capacity);
    } else {
      hide Newest;
      NewestIs(older, Without(order, k) + [k], capacity);
    }
  }

  lemma NewestPlus<K>(older: seq<K>, order: seq<K>, k: K, capacity: nat)
    requires capacity > 0 && (|order| == capacity || |older| == 0)
    ensures Newest((if |order| == capacity then order[1..] else order) + [k], Without(older, k) + (order + [k]), capacity)
  {
    hide Newest;
    if |order| == capacity {
      assert Without(older, k) + (order + [k]) == (Without(older, k) + [order[0]]) + (order[1..] + [k]);
      NewestIs(Without(older, k) + [order[0]], order[1..] + [k], capacity);
    } else {
      NewestIs(Without(older, k), order + [k], capacity);
    }
  }

  /** The table after a write holds the most recently used keys and no others. */
  lemma RememberIsLru<K, V>(m: InsertionMap<K, V>, uses: seq<K>, k: K, v: V, capacity: nat)
    requires m.Valid() && MostRecent(m.order, uses, capacity) && capacity > 0 && |m.order| <= capacity
    ensures MostRecent(m.Remember(k, v, capacity).order, uses + [k], capacity)
  {
    hide UseOrder, MostRecent;
    UseKeepsMostRecent(m.order, uses, k, capacity);
    DeleteValid(m, k);
    MakeRoomIs(m.Delete(k), capacity);
    if k !in m.order {
      WithoutAbsent(m.order, k);
    }
  }

  /** A use of an entry that is there moves it to the end and evicts nothing. */
  lemma TouchIsLru<K, V>(m: InsertionMap<K, V>, uses: seq<K>, k: K, capacity: nat)
    requires m.Valid() && MostRecent(m.order, uses, capacity) && capacity > 0 && k in m.values
    ensures MostRecent(m.Touch(k).order, uses + [k], capacity)
  {
    hide UseOrder, MostRecent;
    UseKeepsMostRecent(m.order, uses, k, capacity);
  }
}
