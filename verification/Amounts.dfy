/** Resource amounts (CPU in milli, memory and disk in bytes) and finite sums over maps. */
module Amounts {

  datatype Amount = Amount(cpu: int, mem: int, disk: int) {
    function Plus(b: Amount): Amount { Amount(cpu + b.cpu, mem + b.mem, disk + b.disk) }

    function Minus(b: Amount): Amount { Amount(cpu - b.cpu, mem - b.mem, disk - b.disk) }

    function Neg(): Amount { Amount(-cpu, -mem, -disk) }

    /** Every dimension is raised to at least zero: the store's clamps. */
    function Floored(): Amount { Amount(Floor(cpu), Floor(mem), Floor(disk)) }

    predicate Within(b: Amount) { cpu <= b.cpu && mem <= b.mem && disk <= b.disk }

    predicate NonNegative() { ZERO.Within(this) }

    predicate Positive() { 0 < cpu && 0 < mem && 0 < disk }
  }

  const ZERO := Amount(0, 0, 0)

  function Floor(x: int): int { if x < 0 then 0 else x }

  /** The sum of the values of a map, in any order. */
  ghost function Total<K>(m: map<K, int>): int {
    if m == map[] then 0
    else
      var k :| k in m;
      m[k] + Total(m - {k})
  }

  lemma {:induction false} TotalSplit<K>(m: map<K, int>, k: K)
    requires k in m
    ensures Total(m) == m[k] + Total(m - {k})
    decreases |m|
  {
    var j :| j in m && Total(m) == m[j] + Total(m - {j});
    if j != k {
      TotalSplit(m - {j}, k);
      TotalSplit(m - {k}, j);
      assert m - {j} - {k} == m - {k} - {j};
    }
  }

  lemma TotalUpdate<K>(m: map<K, int>, k: K, v: int)
    ensures Total(m[k := v]) == Total(m) - (if k in m then m[k] else 0) + v
  {
    TotalSplit(m[k := v], k);
    assert m[k := v] - {k} == m - {k};
    if k in m {
      TotalSplit(m, k);
    } else {
      assert m - {k} == m;
    }
  }

  lemma {:induction false} TotalNonNegative<K>(m: map<K, int>)
    requires forall k :: k in m ==> 0 <= m[k]
    ensures 0 <= Total(m)
    ensures forall k :: k in m ==> m[k] <= Total(m)
    decreases |m|
  {
    forall k | k in m ensures m[k] <= Total(m) {
      TotalSplit(m, k);
      TotalNonNegative(m - {k});
    }
    if m != map[] {
      var k :| k in m;
      assert m[k] <= Total(m);
    }
  }

  /** Keys that contribute nothing may be added or removed. */
  lemma {:induction false} TotalOfZeros<K>(m: map<K, int>)
    requires forall k :: k in m ==> m[k] == 0
    ensures Total(m) == 0
    decreases |m|
  {
    if m != map[] {
      var k :| k in m;
      TotalSplit(m, k);
      TotalOfZeros(m - {k});
    }
  }

  lemma {:induction false} TotalIgnoresZeros<K>(m: map<K, int>, gone: set<K>)
    requires forall k :: k in m && k in gone ==> m[k] == 0
    ensures Total(m - gone) == Total(m)
    decreases |m|
  {
    if k :| k in m && k in gone {
      TotalSplit(m, k);
      TotalIgnoresZeros(m - {k}, gone);
      assert m - {k} - gone == m - gone;
    } else {
      assert m - gone == m;
    }
  }

  lemma {:induction false} TotalMonotone<K>(m: map<K, int>, n: map<K, int>)
    requires m.Keys == n.Keys && forall k :: k in m ==> m[k] <= n[k]
    ensures Total(m) <= Total(n)
    decreases |m|
  {
    if m != map[] {
      var k :| k in m;
      TotalSplit(m, k);
      TotalSplit(n, k);
      TotalMonotone(m - {k}, n - {k});
    } else {
      assert n == map[];
    }
  }

  ghost function Cpus<K>(m: map<K, Amount>): map<K, int> { map k | k in m :: m[k].cpu }

  ghost function Mems<K>(m: map<K, Amount>): map<K, int> { map k | k in m :: m[k].mem }

  ghost function Disks<K>(m: map<K, Amount>): map<K, int> { map k | k in m :: m[k].disk }

  ghost function Sum<K>(m: map<K, Amount>): Amount {
    Amount(Total(Cpus(m)), Total(Mems(m)), Total(Disks(m)))
  }

  lemma SumUpdate<K>(m: map<K, Amount>, k: K, v: Amount)
    ensures Sum(m[k := v]) == Sum(m).Minus(if k in m then m[k] else ZERO).Plus(v)
  {
    assert Cpus(m[k := v]) == Cpus(m)[k := v.cpu];
    assert Mems(m[k := v]) == Mems(m)[k := v.mem];
    assert Disks(m[k := v]) == Disks(m)[k := v.disk];
    TotalUpdate(Cpus(m), k, v.cpu);
    TotalUpdate(Mems(m), k, v.mem);
    TotalUpdate(Disks(m), k, v.disk);
  }

  lemma SumSplit<K>(m: map<K, Amount>, k: K)
    requires k in m
    ensures Sum(m) == m[k].Plus(Sum(m - {k}))
  {
    assert Cpus(m - {k}) == Cpus(m) - {k};
    assert Mems(m - {k}) == Mems(m) - {k};
    assert Disks(m - {k}) == Disks(m) - {k};
    TotalSplit(Cpus(m), k);
    TotalSplit(Mems(m), k);
    TotalSplit(Disks(m), k);
  }

  ghost function Restrict<K>(m: map<K, Amount>, keys: set<K>): map<K, Amount> { map k | k in m && k in keys :: m[k] }

  /** The sum over some of the keys. */
  ghost function SumOver<K>(m: map<K, Amount>, keys: set<K>): Amount { Sum(Restrict(m, keys)) }

  lemma SumOverSplit<K>(m: map<K, Amount>, keys: set<K>, k: K)
    requires k in keys && k in m
    ensures SumOver(m, keys) == m[k].Plus(SumOver(m, keys - {k}))
  {
    SumSplit(Restrict(m, keys), k);
    assert Restrict(m, keys) - {k} == Restrict(m, keys - {k});
  }

  lemma SumOverEnds<K>(m: map<K, Amount>)
    ensures SumOver(m, m.Keys) == Sum(m) && SumOver(m, {}) == ZERO
  {
    assert Restrict(m, m.Keys) == m;
    SumOfZeros(Restrict(m, {}));
  }

  lemma SumNonNegative<K>(m: map<K, Amount>)
    requires forall k :: k in m ==> m[k].NonNegative()
    ensures Sum(m).NonNegative()
    ensures forall k :: k in m ==> m[k].Within(Sum(m))
  {
    TotalNonNegative(Cpus(m));
    TotalNonNegative(Mems(m));
    TotalNonNegative(Disks(m));
    forall k | k in m ensures m[k].Within(Sum(m)) {
      assert Cpus(m)[k] <= Total(Cpus(m)) && Mems(m)[k] <= Total(Mems(m)) && Disks(m)[k] <= Total(Disks(m));
    }
  }

  lemma SumOfZeros<K>(m: map<K, Amount>)
    requires forall k :: k in m ==> m[k] == ZERO
    ensures Sum(m) == ZERO
  {
    TotalOfZeros(Cpus(m));
    TotalOfZeros(Mems(m));
    TotalOfZeros(Disks(m));
  }

  lemma SumIgnoresZeros<K>(m: map<K, Amount>, gone: set<K>)
    requires forall k :: k in m && k in gone ==> m[k] == ZERO
    ensures Sum(m - gone) == Sum(m)
  {
    assert Cpus(m - gone) == Cpus(m) - gone;
    assert Mems(m - gone) == Mems(m) - gone;
    assert Disks(m - gone) == Disks(m) - gone;
    TotalIgnoresZeros(Cpus(m), gone);
    TotalIgnoresZeros(Mems(m), gone);
    TotalIgnoresZeros(Disks(m), gone);
  }

  lemma SumMonotone<K>(m: map<K, Amount>, n: map<K, Amount>)
    requires m.Keys == n.Keys && forall k :: k in m ==> m[k].Within(n[k])
    ensures Sum(m).Within(Sum(n))
  {
    TotalMonotone(Cpus(m), Cpus(n));
    TotalMonotone(Mems(m), Mems(n));
    TotalMonotone(Disks(m), Disks(n));
  }
}
