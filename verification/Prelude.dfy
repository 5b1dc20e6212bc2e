/** Shared vocabulary: failure-compatible results, checked 128-bit arithmetic, sums over
    sequences and maps. */
module Wrappers {
  datatype Option<+T> = None | Some(value: T)

  datatype Result<+T, +E> = Ok(value: T) | Err(error: E) {
    predicate IsFailure() { Err? }

    function PropagateFailure<U>(): Result<U, E>
      requires Err?
    {
      Err(error)
    }

    function Extract(): T
      requires Ok?
    {
      value
    }
  }
}

/** The contracts compute on `i128` and refuse, or saturate on, anything outside it. */
module Int128 {
  const MAX: int := 0x7FFF_FFFF_FFFF_FFFF_FFFF_FFFF_FFFF_FFFF
  const MIN: int := -0x8000_0000_0000_0000_0000_0000_0000_0000
  const BPS: int := 10_000

  predicate Fits(x: int) { MIN <= x <= MAX }

  function Saturate(x: int): int {
    if x < MIN then MIN else if x > MAX then MAX else x
  }

  function Pow10(e: nat): (p: int)
    ensures p >= 1
  {
    if e == 0 then 1 else 10 * Pow10(e - 1)
  }
}

/** Sums of sequences. */
module SeqSum {
  function Sum(s: seq<int>): int {
    if s == [] then 0 else s[0] + Sum(s[1..])
  }

  lemma {:induction false} SumAppend(s: seq<int>, t: seq<int>)
    ensures Sum(s + t) == Sum(s) + Sum(t)
  {
    if s == [] {
      assert s + t == t;
    } else {
      assert (s + t)[1..] == s[1..] + t;
      SumAppend(s[1..], t);
    }
  }

  lemma SumSnoc(s: seq<int>, x: int)
    ensures Sum(s + [x]) == Sum(s) + x
  {
    SumAppend(s, [x]);
    assert Sum([x]) == x + Sum([]);
  }

  lemma {:induction false} SumUpdate(s: seq<int>, i: nat, x: int)
    requires i < |s|
    ensures Sum(s[i := x]) == Sum(s) - s[i] + x
  {
    if i > 0 {
      assert s[i := x][1..] == s[1..][i - 1 := x];
      SumUpdate(s[1..], i - 1, x);
    } else {
      assert s[0 := x][1..] == s[1..];
    }
  }

  lemma {:induction false} SumNonNegative(s: seq<int>)
    requires forall i :: 0 <= i < |s| ==> s[i] >= 0
    ensures Sum(s) >= 0
    ensures forall i :: 0 <= i < |s| ==> s[i] <= Sum(s)
  {
    if s != [] {
      SumNonNegative(s[1..]);
      forall i | 0 <= i < |s| ensures s[i] <= Sum(s) {
        if i > 0 { assert s[i] == s[1..][i - 1]; }
      }
    }
  }
}

/** Sums over the values of a finite map: the ledgers and tallies of the contracts. */
module MapSum {
  ghost function Total<K>(m: map<K, int>): int
    decreases |m|
  {
    if m == map[] then 0
    else
      var k :| k in m;
      m[k] + Total(m - {k})
  }

  lemma {:induction false} TotalRemove<K>(m: map<K, int>, k: K)
    requires k in m
    ensures Total(m) == m[k] + Total(m - {k})
    decreases |m|
  {
    var p :| p in m && Total(m) == m[p] + Total(m - {p});
    if p != k {
      TotalRemove(m - {p}, k);
      TotalRemove(m - {k}, p);
      assert m - {p} - {k} == m - {k} - {p};
    }
  }

  lemma TotalUpdate<K>(m: map<K, int>, k: K, v: int)
    ensures Total(m[k := v]) == Total(m) - (if k in m then m[k] else 0) + v
  {
    TotalRemove(m[k := v], k);
    assert m[k := v] - {k} == m - {k};
    if k in m {
      TotalRemove(m, k);
    } else {
      assert m - {k} == m;
    }
  }

  lemma {:induction false} TotalMonotone<K>(m: map<K, int>, n: map<K, int>)
    requires m.Keys == n.Keys
    requires forall k :: k in m ==> m[k] <= n[k]
    ensures Total(m) <= Total(n)
    decreases |m|
  {
    if m == map[] {
      assert n == map[];
    } else {
      var k :| k in m;
      TotalRemove(m, k);
      TotalRemove(n, k);
      TotalMonotone(m - {k}, n - {k});
    }
  }

  ghost function Scaled<K>(m: map<K, int>, c: int): map<K, int> { map k | k in m :: c * m[k] }

  lemma {:induction false} TotalScaled<K>(m: map<K, int>, c: int)
    ensures Total(Scaled(m, c)) == c * Total(m)
    decreases |m|
  {
    if m == map[] {
      assert Scaled(m, c) == map[];
    } else {
      var k :| k in m;
      ScaledRemove(m, c, k);
      TotalRemove(m, k);
      TotalScaled(m - {k}, c);
      ProductOfSum(c, m[k], Total(m - {k}));
    }
  }

  lemma ScaledRemove<K>(m: map<K, int>, c: int, k: K)
    requires k in m
    ensures Total(Scaled(m, c)) == c * m[k] + Total(Scaled(m - {k}, c))
  {
    TotalRemove(Scaled(m, c), k);
    assert Scaled(m, c) - {k} == Scaled(m - {k}, c);
  }

  lemma ProductOfSum(c: int, x: int, y: int)
    ensures c * (x + y) == c * x + c * y
  {
  }

  lemma {:induction false} TotalNonNegative<K>(m: map<K, int>)
    requires forall k :: k in m ==> m[k] >= 0
    ensures Total(m) >= 0
    ensures forall k :: k in m ==> m[k] <= Total(m)
    decreases |m|
  {
    forall k | k in m ensures m[k] <= Total(m) {
      TotalRemove(m, k);
      TotalNonNegative(m - {k});
    }
    if m != map[] {
      var k :| k in m;
      assert 0 <= m[k] <= Total(m);
    }
  }

  /** A part of non-negative entries is no larger than the whole. */
  lemma {:induction false} PartOfTotal<K>(part: map<K, int>, all: map<K, int>)
    requires part.Keys <= all.Keys && forall a :: a in part ==> part[a] == all[a]
    requires forall a :: a in all ==> all[a] >= 0
    ensures Total(part) <= Total(all)
    decreases |part|
  {
    if part == map[] {
      TotalNonNegative(all);
    } else {
      var a :| a in part;
      TotalRemove(part, a);
      TotalRemove(all, a);
      PartOfTotal(part - {a}, all - {a});
    }
  }
}

/** Identities on the ledger. */
module Chain {
  type Address = nat

  const U32_MAX: nat := 0xFFFF_FFFF
  const U64_MAX: nat := 0xFFFF_FFFF_FFFF_FFFF

  predicate NoDuplicates<T(==)>(s: seq<T>) {
    forall i, j :: 0 <= i < j < |s| ==> s[i] != s[j]
  }
}

/** Iteration over a set: the contracts' maps are walked in an order nothing here depends on. */
module Sets {
  method Pick<T(==)>(s: set<T>) returns (x: T)
    requires s != {}
    ensures x in s
  {
    x :| x in s;
  }
}
