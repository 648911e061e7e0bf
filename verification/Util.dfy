/** Small shared vocabulary: optional values, results, and sums over maps. */
module Util {

  datatype Option<+T> = None | Some(value: T)

  datatype Result<+T> = Ok(value: T) | Refused

  function Max(a: int, b: int): int {
    if a < b then b else a
  }

  /** `m[k]` as JavaScript's `Map.get` or Python's `dict.get` would give it. */
  function Get<K, V>(m: map<K, V>, k: K): Option<V> {
    if k in m then Some(m[k]) else None
  }

  /** `keys` with the first occurrence of `k` taken out, as a JavaScript `Set` or `Map` deletes it. */
  function Without<K(==)>(keys: seq<K>, k: K): seq<K> {
    if |keys| == 0 then []
    else if keys[0] == k then keys[1..]
    else [keys[0]] + Without(keys[1..], k)
  }

  ghost predicate NoRepeats<T>(s: seq<T>) {
    forall i, j | 0 <= i < j < |s| :: s[i] != s[j]
  }

  lemma PrependNoRepeats<T>(x: T, s: seq<T>)
    requires NoRepeats(s) && x !in s
    ensures NoRepeats([x] + s)
  {
    forall i, j | 0 <= i < j < |[x] + s|
      ensures ([x] + s)[i] != ([x] + s)[j]
    {
      assert ([x] + s)[j] == s[j - 1];
    }
  }

  lemma HeadOrTail<T>(s: seq<T>)
    requires |s| > 0
    ensures forall x <- s :: x == s[0] || x in s[1..]
    ensures NoRepeats(s) ==> s[0] !in s[1..] && NoRepeats(s[1..])
  {
    assert forall x :: x in s[1..] ==> x in s;
    assert NoRepeats(s) ==> forall i | 0 <= i < |s[1..]| :: s[1..][i] != s[0];
  }

  lemma {:induction false} WithoutIs<K>(keys: seq<K>, k: K)
    requires NoRepeats(keys)
    ensures NoRepeats(Without(keys, k))
    ensures forall j <- Without(keys, k) :: j in keys && j != k
    ensures forall j <- keys :: j != k ==> j in Without(keys, k)
    ensures |Without(keys, k)| == |keys| - if k in keys then 1 else 0
  {
    hide NoRepeats;
    if |keys| > 0 {
      HeadOrTail(keys);
      if keys[0] != k {
        WithoutIs(keys[1..], k);
        PrependNoRepeats(keys[0], Without(keys[1..], k));
      }
    }
  }

  lemma {:induction false} WithoutConcat<K>(a: seq<K>, b: seq<K>, k: K)
    ensures Without(a + b, k) == if k in a then Without(a, k) + b else a + Without(b, k)
  {
    if |a| == 0 {
      assert a + b == b;
    } else {
      assert (a + b)[1..] == a[1..] + b;
      WithoutConcat(a[1..], b, k);
    }
  }

  lemma {:induction false} WithoutAbsent<K>(keys: seq<K>, k: K)
    requires k !in keys
    ensures Without(keys, k) == keys
  {
    if |keys| > 0 {
      WithoutAbsent(keys[1..], k);
    }
  }

  lemma JoinSlices<T>(s: seq<T>, from: nat, to: nat)
    requires from <= to <= |s|
    ensures s[..from] + s[from..to] == s[..to]
  {
  }

  lemma GrowSlice<T>(s: seq<T>, from: nat, to: nat)
    requires from <= to < |s|
    ensures s[from..to] + [s[to]] == s[from..to + 1]
  {
  }

  lemma SingletonSlice<T>(s: seq<T>, i: nat)
    requires i < |s|
    ensures s[i..i + 1] == [s[i]]
  {
  }

  lemma WholeSlice<T>(s: seq<T>)
    ensures s[..|s|] == s
  {
  }

  lemma EmptySlice<T>(s: seq<T>, i: nat)
    requires i <= |s|
    ensures s[i..i] == []
  {
  }

  // ----- sums over the values of a map -----

  ghost function SumOver<K, V>(m: map<K, V>, f: V -> nat): nat
    decreases |m|
  {
    if |m| == 0 then 0
    else f(m[SomeKey(m)]) + SumOver(m - {SomeKey(m)}, f)
  }

  ghost function SomeKey<K, V>(m: map<K, V>): (k: K)
    requires |m| > 0
    ensures k in m
  {
    assert |m.Keys| > 0;
    var k :| k in m.Keys;
    k
  }

  lemma {:induction false} SumRemove<K, V>(m: map<K, V>, f: V -> nat, k: K)
    requires k in m
    ensures SumOver(m, f) == f(m[k]) + SumOver(m - {k}, f)
    decreases |m|
  {
    var j := SomeKey(m);
    assert SumOver(m, f) == f(m[j]) + SumOver(m - {j}, f);
    hide SumOver;
    if j != k {
      var without := m - {j, k};
      assert m - {j} - {k} == without && m - {k} - {j} == without;
      SumRemove(m - {j}, f, k);
      SumRemove(m - {k}, f, j);
    }
  }

  lemma SumPut<K, V>(m: map<K, V>, f: V -> nat, k: K, v: V)
    ensures k in m ==> SumOver(m[k := v], f) + f(m[k]) == SumOver(m, f) + f(v)
    ensures k !in m ==> SumOver(m[k := v], f) == SumOver(m, f) + f(v)
  {
    hide SumOver;
    SumRemove(m[k := v], f, k);
    assert m[k := v] - {k} == m - {k};
    if k in m {
      SumRemove(m, f, k);
    } else {
      assert m - {k} == m;
    }
  }
}
