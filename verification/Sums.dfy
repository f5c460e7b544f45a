/** Option values, and sums over finite maps with the lemmas that follow one map update. */
module Sums {

  datatype Option<+T> = None | Some(value: T)

  function Max0(x: int): (r: int)
    ensures r >= 0 && r >= x && (r == 0 || r == x)
  {
    if x < 0 then 0 else x
  }

  ghost function Sum<K>(m: map<K, int>): int
    decreases |m|
  {
    if m == map[] then 0
    else
      var k :| k in m;
      assert (m - {k}).Keys == m.Keys - {k};
      m[k] + Sum(m - {k})
  }

  function At<K>(m: map<K, int>, k: K): int {
    if k in m then m[k] else 0
  }

  // The sum does not depend on the order in which entries are taken out.
  lemma {:induction false} SumRemove<K>(m: map<K, int>, k: K)
    requires k in m
    ensures Sum(m) == m[k] + Sum(m - {k})
    decreases |m|
  {
    var c :| c in m && Sum(m) == m[c] + Sum(m - {c});
    if c != k {
      assert (m - {c}).Keys == m.Keys - {c};
      assert (m - {k}).Keys == m.Keys - {k};
      SumRemove(m - {c}, k);
      SumRemove(m - {k}, c);
      assert (m - {c}) - {k} == (m - {k}) - {c};
    }
  }

  lemma SumPut<K>(m: map<K, int>, k: K, v: int)
    ensures Sum(m[k := v]) == Sum(m) - At(m, k) + v
  {
    SumRemove(m[k := v], k);
    assert m[k := v] - {k} == m - {k};
    if k in m {
      SumRemove(m, k);
    } else {
      assert m - {k} == m;
    }
  }

  lemma SumDrop<K>(m: map<K, int>, k: K)
    ensures Sum(m - {k}) == Sum(m) - At(m, k)
  {
    if k in m {
      SumRemove(m, k);
    } else {
      assert m - {k} == m;
    }
  }

  lemma {:induction false} SumMonotone<K>(m: map<K, int>, n: map<K, int>)
    requires m.Keys == n.Keys && forall k :: k in m ==> m[k] <= n[k]
    ensures Sum(m) <= Sum(n)
    decreases |m|
  {
    if m != map[] {
      var k :| k in m;
      SumRemove(m, k);
      SumRemove(n, k);
      assert (m - {k}).Keys == m.Keys - {k} == (n - {k}).Keys;
      SumMonotone(m - {k}, n - {k});
    } else {
      assert n == map[];
    }
  }

  lemma {:induction false} SumZero<K>(m: map<K, int>)
    requires forall k :: k in m ==> m[k] == 0
    ensures Sum(m) == 0
    decreases |m|
  {
    if m != map[] {
      var k :| k in m;
      SumRemove(m, k);
      assert (m - {k}).Keys == m.Keys - {k};
      SumZero(m - {k});
    }
  }

  lemma SumNonNegative<K>(m: map<K, int>)
    requires forall k :: k in m ==> 0 <= m[k]
    ensures 0 <= Sum(m)
  {
    var z := map k | k in m :: 0;
    SumZero(z);
    SumMonotone(z, m);
  }

  // ---- entries inside and outside a set of keys ----

  function Outside<K>(m: map<K, int>, s: set<K>): map<K, int> {
    map k | k in m :: if k in s then 0 else m[k]
  }

  function Inside<K>(m: map<K, int>, s: set<K>): map<K, int> {
    map k | k in m :: if k in s then m[k] else 0
  }

  function Elements<K>(ids: seq<K>): set<K> {
    set k | k in ids
  }

  ghost predicate NoRepeats<K>(ids: seq<K>) {
    forall i, j :: 0 <= i < j < |ids| ==> ids[i] != ids[j]
  }

  ghost function SeqSum<K>(m: map<K, int>, ids: seq<K>): int {
    if ids == [] then 0 else SeqSum(m, ids[..|ids| - 1]) + At(m, ids[|ids| - 1])
  }

  lemma MoveOne<K>(m: map<K, int>, s: set<K>, k: K)
    requires k in m && k !in s
    ensures Sum(Outside(m, s + {k})) == Sum(Outside(m, s)) - m[k]
    ensures Sum(Inside(m, s + {k})) == Sum(Inside(m, s)) + m[k]
  {
    assert Outside(m, s + {k}) == Outside(m, s)[k := 0];
    assert Inside(m, s + {k}) == Inside(m, s)[k := m[k]];
    SumPut(Outside(m, s), k, 0);
    SumPut(Inside(m, s), k, m[k]);
  }

  // Moving a list of keys from outside to inside moves exactly their sum.
  lemma {:induction false} MoveInside<K>(m: map<K, int>, s: set<K>, ids: seq<K>)
    requires NoRepeats(ids) && forall k :: k in ids ==> k in m && k !in s
    ensures Sum(Outside(m, s + Elements(ids))) == Sum(Outside(m, s)) - SeqSum(m, ids)
    ensures Sum(Inside(m, s + Elements(ids))) == Sum(Inside(m, s)) + SeqSum(m, ids)
    decreases |ids|
  {
    if ids == [] {
      assert s + Elements(ids) == s;
    } else {
      var init, k := ids[..|ids| - 1], ids[|ids| - 1];
      assert ids == init + [k];
      MoveInside(m, s, init);
      assert k !in init;
      MoveOne(m, s + Elements(init), k);
      assert s + Elements(ids) == s + Elements(init) + {k};
    }
  }

  lemma {:induction false} SeqSumConcat<K>(m: map<K, int>, a: seq<K>, b: seq<K>)
    ensures SeqSum(m, a + b) == SeqSum(m, a) + SeqSum(m, b)
    decreases |b|
  {
    if b == [] {
      assert a + b == a;
    } else {
      assert (a + b)[..|a + b| - 1] == a + b[..|b| - 1];
      SeqSumConcat(m, a, b[..|b| - 1]);
    }
  }

  lemma {:induction false} SeqSumMonotone<K>(m: map<K, int>, n: map<K, int>, ids: seq<K>)
    requires forall k :: k in ids ==> At(m, k) <= At(n, k)
    ensures SeqSum(m, ids) <= SeqSum(n, ids)
  {
    if ids != [] {
      SeqSumMonotone(m, n, ids[..|ids| - 1]);
    }
  }

  lemma InsideIgnores<K>(m: map<K, int>, s: set<K>, k: K, v: int)
    requires k !in s
    ensures Sum(Inside(m[k := v], s)) == Sum(Inside(m, s))
  {
    assert Inside(m[k := v], s) == Inside(m, s)[k := 0];
    SumPut(Inside(m, s), k, 0);
  }

  lemma InsideMonotone<K>(m: map<K, int>, s: set<K>, t: set<K>)
    requires s <= t && forall k :: k in m ==> 0 <= m[k]
    ensures 0 <= Sum(Inside(m, s)) <= Sum(Inside(m, t))
  {
    SumNonNegative(Inside(m, s));
    SumMonotone(Inside(m, s), Inside(m, t));
  }
}
