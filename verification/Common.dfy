/** Small shared vocabulary: optional values, real arithmetic, finite sums and
    the stable sort that Python's `list.sort` / `sorted` provide. */
module Common {
  datatype Option<+T> = None | Some(value: T)

  datatype Side = Long | Short

  function Min(a: real, b: real): real { if a <= b then a else b }

  function Max(a: real, b: real): real { if a >= b then a else b }

  function Abs(a: real): real { if a >= 0.0 then a else -a }

  /** Money for a quantity at a price. Proofs that only move such amounts around hide the product. */
  function Value(qty: real, price: real): real { qty * price }

  function Sum(s: seq<real>): real {
    if s == [] then 0.0 else s[0] + Sum(s[1..])
  }

  /** Position of the first element that satisfies p, or the length. */
  function FirstWhere<T>(s: seq<T>, p: T -> bool): (i: nat)
    ensures i <= |s|
    ensures i < |s| ==> p(s[i])
    ensures forall j :: 0 <= j < i ==> !p(s[j])
  {
    if s == [] || p(s[0]) then 0 else 1 + FirstWhere(s[1..], p)
  }

  lemma ProductMonotone(x: real, a: real, b: real)
    requires x >= 0.0 && a <= b
    ensures x * a <= x * b
  {
  }

  lemma NoValue(price: real)
    ensures Value(0.0, price) == 0.0
  {
  }

  lemma {:induction false} SumSnoc(s: seq<real>, x: real)
    ensures Sum(s + [x]) == Sum(s) + x
  {
    if s == [] {
      assert Sum([x]) == x + Sum([]);
    } else {
      SumSnoc(s[1..], x);
      assert (s + [x])[1..] == s[1..] + [x];
    }
  }

  lemma NonNegativeValue(x: real, y: real)
    requires x >= 0.0 && y >= 0.0
    ensures Value(x, y) >= 0.0
  {
  }

  lemma BackToWhole(x: real, d: real)
    requires d != 0.0
    ensures Value(x / d, d) == x
  {
  }

  /** Comparing a quotient is comparing with a multiple. */
  lemma QuotientCompares(x: real, d: real, limit: real)
    requires d > 0.0
    ensures x / d < limit <==> x < Value(limit, d)
    ensures x / d > limit <==> x > Value(limit, d)
  {
    var q := x / d;
    assert q * d == x;
    assert (limit - q) * d == limit * d - x;
  }

  lemma QuotientSign(x: real, d: real)
    requires d > 0.0
    ensures x / d > 0.0 <==> x > 0.0
  {
    var q := x / d;
    assert q * d == x;
  }

  /** Sum of the values of a dictionary, in whatever order. */
  ghost function MapSum<K>(m: map<K, real>): real
    decreases |m|
  {
    if m == map[] then 0.0 else var k :| k in m; m[k] + MapSum(m - {k})
  }

  lemma {:induction false} MapSumTakeOut<K>(m: map<K, real>, k: K)
    requires k in m
    ensures MapSum(m) == m[k] + MapSum(m - {k})
    decreases |m|
  {
    var c :| c in m && MapSum(m) == m[c] + MapSum(m - {c});
    if c != k {
      MapSumTakeOut(m - {c}, k);
      MapSumTakeOut(m - {k}, c);
      assert m - {c} - {k} == m - {k} - {c};
    }
  }

  /** Changing one entry changes the sum by the difference. */
  lemma MapSumUpdate<K>(m: map<K, real>, k: K, v: real)
    ensures MapSum(m[k := v]) == MapSum(m) + v - (if k in m then m[k] else 0.0)
  {
    MapSumTakeOut(m[k := v], k);
    assert m[k := v] - {k} == m - {k};
    if k in m {
      MapSumTakeOut(m, k);
    } else {
      assert m - {k} == m;
    }
  }

  // -------------------------------------------------------------------------
  // Stable sorting. `before(a, b)` is the strict order on sort keys.
  // -------------------------------------------------------------------------

  /** Inserts x behind every element that does not have to come after it. */
  function Insert<T>(s: seq<T>, x: T, before: (T, T) -> bool): seq<T> {
    if s == [] || !before(x, s[|s| - 1])
    then s + [x]
    else Insert(s[..|s| - 1], x, before) + [s[|s| - 1]]
  }

  function StableSort<T>(s: seq<T>, before: (T, T) -> bool): seq<T> {
    if s == [] then [] else Insert(StableSort(s[..|s| - 1], before), s[|s| - 1], before)
  }

  ghost predicate Sorted<T>(s: seq<T>, before: (T, T) -> bool) {
    forall i, j :: 0 <= i < j < |s| ==> !before(s[j], s[i])
  }

  /** `before` compares keys of a total order: asymmetric, and its complement is transitive. */
  ghost predicate KeyOrder<T(!new)>(before: (T, T) -> bool) {
    && (forall a, b :: before(a, b) ==> !before(b, a))
    && (forall a, b, c :: before(a, c) ==> before(a, b) || before(b, c))
  }

  lemma {:induction false} InsertKeepsAll<T>(s: seq<T>, x: T, before: (T, T) -> bool)
    ensures multiset(Insert(s, x, before)) == multiset(s) + multiset{x}
    ensures |Insert(s, x, before)| == |s| + 1
  {
    if s == [] || !before(x, s[|s| - 1]) {
    } else {
      var n := |s| - 1;
      InsertKeepsAll(s[..n], x, before);
      assert s == s[..n] + [s[n]];
    }
  }

  lemma {:induction false} StableSortKeepsAll<T>(s: seq<T>, before: (T, T) -> bool)
    ensures multiset(StableSort(s, before)) == multiset(s)
    ensures |StableSort(s, before)| == |s|
  {
    if s != [] {
      var n := |s| - 1;
      StableSortKeepsAll(s[..n], before);
      InsertKeepsAll(StableSort(s[..n], before), s[n], before);
      assert s == s[..n] + [s[n]];
    }
  }

  lemma {:induction false} InsertKeepsSorted<T(!new)>(s: seq<T>, x: T, before: (T, T) -> bool)
    requires KeyOrder(before) && Sorted(s, before)
    ensures Sorted(Insert(s, x, before), before)
  {
    if s == [] {
    } else if !before(x, s[|s| - 1]) {
      var n := |s| - 1;
      forall i | 0 <= i < |s| ensures !before(x, s[i]) {
        var y, z := s[i], s[n];
        assert before(x, y) ==> before(x, z) || before(z, y);
      }
    } else {
      var n := |s| - 1;
      InsertKeepsSorted(s[..n], x, before);
      var t := Insert(s[..n], x, before);
      forall i | 0 <= i < |t| ensures !before(s[n], t[i]) {
        InsertMembers(s[..n], x, before, t[i]);
        assert t[i] == x ==> before(t[i], s[n]);
      }
    }
  }

  lemma InsertMembers<T>(s: seq<T>, x: T, before: (T, T) -> bool, e: T)
    requires e in Insert(s, x, before)
    ensures e == x || e in s
  {
    InsertKeepsAll(s, x, before);
    assert e in multiset(Insert(s, x, before));
  }

  lemma {:induction false} StableSortSorts<T(!new)>(s: seq<T>, before: (T, T) -> bool)
    requires KeyOrder(before)
    ensures Sorted(StableSort(s, before), before)
  {
    if s != [] {
      StableSortSorts(s[..|s| - 1], before);
      InsertKeepsSorted(StableSort(s[..|s| - 1], before), s[|s| - 1], before);
    }
  }

  lemma {:induction false} StableSortFixpoint<T>(s: seq<T>, before: (T, T) -> bool)
    requires Sorted(s, before)
    ensures StableSort(s, before) == s
  {
    if s != [] {
      StableSortFixpoint(s[..|s| - 1], before);
    }
  }

  /** Appending to a sorted list and re-sorting is one insertion. */
  lemma StableSortAppend<T>(s: seq<T>, x: T, before: (T, T) -> bool)
    requires Sorted(s, before)
    ensures StableSort(s + [x], before) == Insert(s, x, before)
  {
    assert (s + [x])[..|s|] == s;
    StableSortFixpoint(s, before);
  }
}
