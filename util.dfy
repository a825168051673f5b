/** Numbers, optional values and insertion-ordered dictionaries shared by every module.
    JavaScript numbers are modelled as exact `real`s; a JavaScript object used as a
    dictionary is an association list kept in the order `Object.entries` reports. */
module Util {

  datatype Option<T> = None | Some(value: T) {
    function GetOr(default: T): T {
      if Some? then value else default
    }
  }

  /** The outcome of code that can throw: a value, or the message of the error. */
  datatype Result<T> = Ok(value: T) | Thrown(error: string)

  // ---------------------------------------------------------------- numbers

  function Abs(x: real): real {
    if x < 0.0 then -x else x
  }

  function MinR(a: real, b: real): real {
    if a <= b then a else b
  }

  function MaxR(a: real, b: real): real {
    if a >= b then a else b
  }

  function MinInt(a: int, b: int): int {
    if a <= b then a else b
  }

  /** `Math.round` on a finite number: the nearest integer, halves rounded up. */
  function Round(x: real): (r: int)
    ensures x - 0.5 < r as real <= x + 0.5
  {
    (x + 0.5).Floor
  }

  /** `Math.floor`. */
  function Floor(x: real): (r: int)
    ensures r as real <= x < r as real + 1.0
  {
    x.Floor
  }

  /** `Math.max(lo, Math.min(hi, x))`, the clamp every weight update applies. */
  function Clamp(x: real, lo: real, hi: real): (r: real)
    requires lo <= hi
    ensures lo <= r <= hi
    ensures lo <= x <= hi ==> r == x
    ensures x < lo ==> r == lo
    ensures hi < x ==> r == hi
  {
    MaxR(lo, MinR(hi, x))
  }

  lemma RoundMonotone(x: real, y: real)
    requires x <= y
    ensures Round(x) <= Round(y)
  {}

  lemma RoundOfInt(n: int)
    ensures Round(n as real) == n
  {}

  function Sum(s: seq<real>): real {
    if |s| == 0 then 0.0 else Sum(s[..|s| - 1]) + s[|s| - 1]
  }

  lemma {:induction false} SumAppend(s: seq<real>, x: real)
    ensures Sum(s + [x]) == Sum(s) + x
  {
    assert (s + [x])[..|s + [x]| - 1] == s;
  }

  lemma {:induction false} SumConcat(a: seq<real>, b: seq<real>)
    ensures Sum(a + b) == Sum(a) + Sum(b)
    decreases |b|
  {
    if |b| == 0 {
      assert a + b == a;
    } else {
      var b' := b[..|b| - 1];
      assert a + b == (a + b') + [b[|b| - 1]];
      SumConcat(a, b');
      SumAppend(a + b', b[|b| - 1]);
      assert b == b' + [b[|b| - 1]];
      SumAppend(b', b[|b| - 1]);
    }
  }

  lemma {:induction false} SumBounds(s: seq<real>, lo: real, hi: real)
    requires forall i :: 0 <= i < |s| ==> lo <= s[i] <= hi
    ensures |s| as real * lo <= Sum(s) <= |s| as real * hi
  {
    if |s| > 0 {
      SumBounds(s[..|s| - 1], lo, hi);
    }
  }

  lemma {:induction false} SumPositive(s: seq<real>)
    requires |s| > 0
    requires forall i :: 0 <= i < |s| ==> s[i] > 0.0
    ensures Sum(s) > 0.0
  {
    if |s| > 1 {
      SumPositive(s[..|s| - 1]);
    }
  }

  /** Replacing one element changes the sum by the difference. */
  lemma {:induction false} SumUpdate(s: seq<real>, i: int, x: real)
    requires 0 <= i < |s|
    ensures Sum(s[i := x]) == Sum(s) - s[i] + x
    decreases |s|
  {
    var n := |s|;
    if i == n - 1 {
      assert s[i := x][..n - 1] == s[..n - 1];
    } else {
      assert s[i := x][..n - 1] == s[..n - 1][i := x];
      SumUpdate(s[..n - 1], i, x);
    }
  }

  lemma DivAtMost(a: real, b: real, n: real)
    requires n > 0.0 && a <= b * n
    ensures a / n <= b
  {}

  lemma DivAtLeast(a: real, b: real, n: real)
    requires n > 0.0 && b * n <= a
    ensures b <= a / n
  {}

  /** The arithmetic mean of a non-empty sequence lies between its bounds. */
  lemma MeanBounds(s: seq<real>, lo: real, hi: real)
    requires |s| > 0
    requires forall i :: 0 <= i < |s| ==> lo <= s[i] <= hi
    ensures lo <= Sum(s) / |s| as real <= hi
  {
    SumBounds(s, lo, hi);
    var n := |s| as real;
    assert lo * n <= Sum(s) <= hi * n;
    DivAtMost(Sum(s), hi, n);
    DivAtLeast(Sum(s), lo, n);
  }

  /** `s.filter(keep)`: the elements that pass, in their original order. */
  function Filter<T(!new)>(s: seq<T>, keep: T -> bool): (r: seq<T>)
    ensures |r| <= |s|
    ensures forall x :: x in r <==> x in s && keep(x)
  {
    if |s| == 0 then []
    else (if keep(s[0]) then [s[0]] else []) + Filter(s[1..], keep)
  }

  // ---------------------------------------------------- ordered dictionaries

  /** A JavaScript object used as a dictionary: entries in enumeration order. */
  type Dict<K, V> = seq<(K, V)>

  function Keys<K, V>(d: Dict<K, V>): (r: seq<K>)
    ensures |r| == |d|
  {
    seq(|d|, i requires 0 <= i < |d| => d[i].0)
  }

  function Values<K, V>(d: Dict<K, V>): (r: seq<V>)
    ensures |r| == |d|
  {
    seq(|d|, i requires 0 <= i < |d| => d[i].1)
  }

  /** `d[k] !== undefined`. */
  predicate HasKey<K(==,!new), V>(d: Dict<K, V>, k: K) {
    |d| > 0 && (d[0].0 == k || HasKey(d[1..], k))
  }

  predicate DistinctKeys<K(==,!new), V>(d: Dict<K, V>) {
    forall i, j :: 0 <= i < j < |d| ==> d[i].0 != d[j].0
  }

  /** `d[k]`: the value stored under `k`, `None` for `undefined`. */
  function Get<K(==,!new), V>(d: Dict<K, V>, k: K): (r: Option<V>)
    ensures r.None? <==> !HasKey(d, k)
  {
    if |d| == 0 then None
    else if d[0].0 == k then Some(d[0].1)
    else Get(d[1..], k)
  }

  /** `d[k] = v`: an existing key keeps its position, a new key goes last. */
  function Put<K(==,!new), V>(d: Dict<K, V>, k: K, v: V): (r: Dict<K, V>)
    ensures Get(r, k) == Some(v)
    ensures forall j :: j != k ==> Get(r, j) == Get(d, j)
    ensures HasKey(d, k) ==> Keys(r) == Keys(d)
    ensures !HasKey(d, k) ==> r == d + [(k, v)]
  {
    if |d| == 0 then [(k, v)]
    else if d[0].0 == k then [(k, v)] + d[1..]
    else
      var rest := Put(d[1..], k, v);
      assert ([d[0]] + rest)[1..] == rest;
      assert HasKey(d, k) ==> Keys([d[0]] + rest) == [d[0].0] + Keys(rest);
      assert Keys(d) == [d[0].0] + Keys(d[1..]);
      [d[0]] + rest
  }

  /** `d[k] = (d[k] || 0) + x`, the accumulation every aggregation loop performs. */
  function Accumulate<K(==,!new)>(d: Dict<K, real>, k: K, x: real): (r: Dict<K, real>)
    ensures Get(r, k) == Some(Get(d, k).GetOr(0.0) + x)
    ensures forall j :: j != k ==> Get(r, j) == Get(d, j)
  {
    Put(d, k, Get(d, k).GetOr(0.0) + x)
  }

  /** `d[k] = (d[k] || 0) + 1`. */
  function Increment<K(==,!new)>(d: Dict<K, nat>, k: K): (r: Dict<K, nat>)
    ensures Get(r, k) == Some(Get(d, k).GetOr(0) + 1)
    ensures forall j :: j != k ==> Get(r, j) == Get(d, j)
  {
    Put(d, k, Get(d, k).GetOr(0) + 1)
  }

  function ValuesSum<K>(d: Dict<K, real>): real {
    if |d| == 0 then 0.0 else d[0].1 + ValuesSum(d[1..])
  }

  /** Accumulating `x` under any key raises the sum of all values by exactly `x`. */
  lemma {:induction false} AccumulateSum<K(!new)>(d: Dict<K, real>, k: K, x: real)
    ensures ValuesSum(Accumulate(d, k, x)) == ValuesSum(d) + x
  {
    PutSum(d, k, Get(d, k).GetOr(0.0) + x);
  }

  lemma {:induction false} PutSum<K(!new)>(d: Dict<K, real>, k: K, v: real)
    ensures ValuesSum(Put(d, k, v)) == ValuesSum(d) - Get(d, k).GetOr(0.0) + v
  {
    if |d| == 0 {
    } else if d[0].0 == k {
    } else {
      PutSum(d[1..], k, v);
      assert Put(d, k, v) == [d[0]] + Put(d[1..], k, v);
      assert ([d[0]] + Put(d[1..], k, v))[1..] == Put(d[1..], k, v);
    }
  }

  /** Every value is strictly positive. */
  predicate AllPositive<K>(d: Dict<K, real>) {
    forall i :: 0 <= i < |d| ==> d[i].1 > 0.0
  }

  lemma {:induction false} GetPositive<K(!new)>(d: Dict<K, real>, k: K)
    requires AllPositive(d)
    ensures Get(d, k).GetOr(0.0) >= 0.0
  {
    if |d| > 0 && d[0].0 != k {
      GetPositive(d[1..], k);
    }
  }

  /** Storing a positive value keeps every value positive. */
  lemma {:induction false} PutPositive<K(!new)>(d: Dict<K, real>, k: K, v: real)
    requires AllPositive(d) && v > 0.0
    ensures AllPositive(Put(d, k, v))
  {
    if |d| > 0 && d[0].0 != k {
      PutPositive(d[1..], k, v);
      assert Put(d, k, v) == [d[0]] + Put(d[1..], k, v);
    }
  }

  // ------------------------------------------------ maximum and stable sort

  /** Index of the first maximal element: what `[...].sort((a, b) => b - a)[0]`
      picks, since the sort is stable. */
  function ArgMaxFirst(s: seq<real>): (i: nat)
    requires |s| > 0
    ensures i < |s|
    ensures forall j :: 0 <= j < |s| ==> s[j] <= s[i]
    ensures forall j :: 0 <= j < i ==> s[j] < s[i]
  {
    if |s| == 1 then 0
    else
      var k := ArgMaxFirst(s[1..]) + 1;
      if s[0] >= s[k] then 0 else k
  }

  predicate SortedDesc<K>(d: Dict<K, real>) {
    forall i, j :: 0 <= i < j < |d| ==> d[i].1 >= d[j].1
  }

  function InsertDesc<K>(e: (K, real), s: Dict<K, real>): Dict<K, real> {
    if |s| == 0 || e.1 >= s[0].1 then [e] + s
    else [s[0]] + InsertDesc(e, s[1..])
  }

  /** `Object.entries(d).sort(([, a], [, b]) => b - a)`: a stable insertion sort,
      so that among equal values the earlier entry stays first. */
  function SortDesc<K>(d: Dict<K, real>): Dict<K, real> {
    if |d| == 0 then [] else InsertDesc(d[0], SortDesc(d[1..]))
  }

  predicate AllAtMost<K>(s: Dict<K, real>, v: real) {
    forall i :: 0 <= i < |s| ==> s[i].1 <= v
  }

  lemma {:induction false} InsertDescBound<K>(e: (K, real), s: Dict<K, real>, v: real)
    requires AllAtMost(s, v) && e.1 <= v
    ensures AllAtMost(InsertDesc(e, s), v)
  {
    if |s| > 0 && e.1 < s[0].1 {
      InsertDescBound(e, s[1..], v);
    }
  }

  lemma {:induction false} InsertDescMultiset<K(!new)>(e: (K, real), s: Dict<K, real>)
    ensures multiset(InsertDesc(e, s)) == multiset(s) + multiset{e}
    ensures |InsertDesc(e, s)| == |s| + 1
  {
    if |s| > 0 && e.1 < s[0].1 {
      InsertDescMultiset(e, s[1..]);
      assert s == [s[0]] + s[1..];
    }
  }

  lemma {:induction false} InsertDescSorted<K>(e: (K, real), s: Dict<K, real>)
    requires SortedDesc(s)
    ensures SortedDesc(InsertDesc(e, s))
  {
    if |s| > 0 && e.1 < s[0].1 {
      var t := s[1..];
      InsertDescSorted(e, t);
      InsertDescBound(e, t, s[0].1);
      var r := InsertDesc(e, t);
      assert InsertDesc(e, s) == [s[0]] + r;
      forall i, j | 0 <= i < j < |[s[0]] + r|
        ensures ([s[0]] + r)[i].1 >= ([s[0]] + r)[j].1
      {
        if i > 0 {
          assert ([s[0]] + r)[i] == r[i - 1];
        }
      }
    }
  }

  /** The sort returns the same entries, ordered by value descending. */
  lemma {:induction false} SortDescProps<K(!new)>(d: Dict<K, real>)
    ensures SortedDesc(SortDesc(d))
    ensures multiset(SortDesc(d)) == multiset(d)
    ensures |SortDesc(d)| == |d|
  {
    if |d| > 0 {
      SortDescProps(d[1..]);
      InsertDescSorted(d[0], SortDesc(d[1..]));
      InsertDescMultiset(d[0], SortDesc(d[1..]));
      assert d == [d[0]] + d[1..];
    }
  }

  /** The head of the stably sorted entries is the first entry with the largest value. */
  lemma {:induction false} SortDescHead<K(!new)>(d: Dict<K, real>)
    requires |d| > 0
    ensures |SortDesc(d)| == |d|
    ensures SortDesc(d)[0] == d[ArgMaxFirst(Values(d))]
  {
    SortDescProps(d);
    if |d| == 1 {
    } else {
      SortDescHead(d[1..]);
      SortDescProps(d[1..]);
      InsertDescMultiset(d[0], SortDesc(d[1..]));
      assert Values(d)[1..] == Values(d[1..]);
    }
  }
}
