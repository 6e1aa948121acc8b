/** Options, results and the exact arithmetic every money rule uses. */
module Basics {
  datatype Option<+T> = None | Some(value: T)

  datatype Result<+T, +E> = Ok(value: T) | Err(error: E)

  /** The first element that fits. */
  function FindFirst<T>(xs: seq<T>, fits: T -> bool): (r: Option<nat>)
    ensures r.Some? ==> r.value < |xs| && fits(xs[r.value]) && forall i :: 0 <= i < r.value ==> !fits(xs[i])
    ensures r.None? ==> forall i :: 0 <= i < |xs| ==> !fits(xs[i])
  {
    if xs == [] then None
    else
      var r := FindFirst(xs[..|xs| - 1], fits);
      if r.Some? then r else if fits(xs[|xs| - 1]) then Some(|xs| - 1) else None
  }

  function Min(a: int, b: int): int { if a <= b then a else b }

  function Max(a: int, b: int): int { if a >= b then a else b }

  /** `Math.round(num / den)` on the exact rational: the nearest integer, halves upwards. */
  function RoundDiv(num: int, den: int): (r: int)
    requires den > 0
    ensures 2 * den * r <= 2 * num + den < 2 * den * r + 2 * den
  {
    (2 * num + den) / (2 * den)
  }

  /** The least integer not below `num / den`. */
  function CeilDiv(num: int, den: int): (r: int)
    requires den > 0
    ensures den * (r - 1) < num <= den * r
  {
    (num + den - 1) / den
  }

  lemma MulMono(a: int, b: int, c: int)
    requires a <= b && 0 <= c
    ensures a * c <= b * c
  {
  }

  lemma ZeroShare(n: int, done: int, den: int)
    requires den > 0 && done == 0
    ensures RoundDiv(n * done, den) == 0 && (n * done) / den == 0
  {
    assert n * done == 0;
    assert den / (2 * den) == 0;
  }

  /** A whole quotient is the largest multiplier that fits. */
  lemma DivFits(n: int, p: int, m: int)
    requires p > 0 && n * p <= m
    ensures n <= m / p
  {
    if n > m / p { MulMono(m / p + 1, n, p); }
  }

  lemma Cancel(a: int, b: int, c: int)
    requires c > 0 && a * c <= b * c
    ensures a <= b
  {
    if a > b { MulMono(b + 1, a, c); }
  }

  /** Rounding keeps order. */
  lemma RoundMono(a: int, b: int, den: int)
    requires den > 0 && a <= b
    ensures RoundDiv(a, den) <= RoundDiv(b, den)
  {
    var x, y := RoundDiv(a, den), RoundDiv(b, den);
    if x > y {
      MulMono(y + 1, x, 2 * den);
    }
  }

  /** Whole units pass through rounding. */
  lemma RoundShift(a: int, k: int, den: int)
    requires den > 0
    ensures RoundDiv(a + k * den, den) == RoundDiv(a, den) + k
  {
    var x, y := RoundDiv(a + k * den, den), RoundDiv(a, den) + k;
    assert 2 * den * y == 2 * den * RoundDiv(a, den) + 2 * (k * den);
    if x > y {
      MulMono(y + 1, x, 2 * den);
    } else if x < y {
      MulMono(x + 1, y, 2 * den);
    }
  }

  /** Exact multiples round to themselves. */
  lemma RoundExact(k: int, den: int)
    requires den > 0
    ensures RoundDiv(k * den, den) == k
  {
    RoundShift(0, k, den);
  }

  // ------------------------------------------------------------------ ORDER BY key, id

  ghost predicate Within(ids: seq<nat>, n: nat) { forall k :: 0 <= k < |ids| ==> ids[k] < n }

  /** `x` after every id whose key is not larger. */
  function InsertBy(xs: seq<nat>, x: nat, keys: seq<int>): (r: seq<nat>)
    requires x < |keys| && Within(xs, |keys|)
    ensures Within(r, |keys|)
    ensures forall y :: y in r <==> y in xs || y == x
  {
    if xs == [] || keys[x] < keys[xs[0]] then [x] + xs
    else
      assert xs == [xs[0]] + xs[1..];
      [xs[0]] + InsertBy(xs[1..], x, keys)
  }

  /** Ids in ascending order of key; equal keys keep the order of the ids. */
  function SortBy(ids: seq<nat>, keys: seq<int>): (r: seq<nat>)
    requires Within(ids, |keys|)
    ensures Within(r, |keys|)
    ensures forall y :: y in r <==> y in ids
  {
    if ids == [] then []
    else
      assert ids == ids[..|ids| - 1] + [ids[|ids| - 1]];
      InsertBy(SortBy(ids[..|ids| - 1], keys), ids[|ids| - 1], keys)
  }

  ghost predicate Ascending(ids: seq<nat>, keys: seq<int>)
    requires Within(ids, |keys|)
  {
    forall i, k :: 0 <= i < k < |ids| ==> keys[ids[i]] <= keys[ids[k]]
  }

  ghost predicate NoRepeat(ids: seq<nat>)
  {
    forall i, k :: 0 <= i < k < |ids| ==> ids[i] != ids[k]
  }

  lemma PrependKeeps(x: nat, r: seq<nat>, keys: seq<int>)
    requires x < |keys| && Within(r, |keys|) && Ascending(r, keys) && NoRepeat(r)
    requires forall y :: y in r ==> keys[x] <= keys[y] && y != x
    ensures Within([x] + r, |keys|) && Ascending([x] + r, keys) && NoRepeat([x] + r)
  {
    assert forall k :: 0 <= k < |r| ==> r[k] in r;
  }

  lemma TailKeeps(xs: seq<nat>, keys: seq<int>)
    requires xs != [] && Within(xs, |keys|) && Ascending(xs, keys) && NoRepeat(xs)
    ensures Within(xs[1..], |keys|) && Ascending(xs[1..], keys) && NoRepeat(xs[1..])
    ensures forall y :: y in xs[1..] ==> keys[xs[0]] <= keys[y] && y != xs[0]
    ensures forall y :: y in xs <==> y == xs[0] || y in xs[1..]
  {
    assert forall k :: 0 <= k < |xs[1..]| ==> xs[1..][k] == xs[k + 1];
    assert xs == [xs[0]] + xs[1..];
  }

  lemma {:induction false} InsertByKeeps(xs: seq<nat>, x: nat, keys: seq<int>)
    requires x < |keys| && Within(xs, |keys|) && Ascending(xs, keys) && NoRepeat(xs) && x !in xs
    ensures Ascending(InsertBy(xs, x, keys), keys) && NoRepeat(InsertBy(xs, x, keys))
  {
    if xs != [] {
      TailKeeps(xs, keys);
      hide Ascending, NoRepeat;
      if keys[x] < keys[xs[0]] {
        PrependKeeps(x, xs, keys);
      } else {
        InsertByKeeps(xs[1..], x, keys);
        PrependKeeps(xs[0], InsertBy(xs[1..], x, keys), keys);
      }
    }
  }

  lemma {:induction false} SortByKeeps(ids: seq<nat>, keys: seq<int>)
    requires Within(ids, |keys|) && NoRepeat(ids)
    ensures Ascending(SortBy(ids, keys), keys) && NoRepeat(SortBy(ids, keys))
  {
    if ids != [] {
      SortByKeeps(ids[..|ids| - 1], keys);
      InsertByKeeps(SortBy(ids[..|ids| - 1], keys), ids[|ids| - 1], keys);
    }
  }
}
