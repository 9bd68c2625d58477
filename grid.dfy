/**
 * The shape of the deriver's nested loops, independent of what one pass makes:
 * an outer loop over the x quantities, an inner loop over the y quantities, a
 * running number that counts the passes from 1, and an early exit on the first
 * pass that yields nothing.
 */
module Grids {
  import opened Common

  /** The (x, y) pairs in the order of the nested loops: x-major, y-minor. */
  function Grid<X>(xs: seq<X>, ys: seq<X>): seq<(X, X)>
    decreases |xs|
  {
    if xs == [] then []
    else
      var last := xs[|xs| - 1];
      Grid(xs[..|xs| - 1], ys) + seq(|ys|, j requires 0 <= j < |ys| => (last, ys[j]))
  }

  lemma {:induction false} GridSize<X>(xs: seq<X>, ys: seq<X>)
    ensures |Grid(xs, ys)| == |xs| * |ys|
    decreases |xs|
  {
    if xs != [] {
      GridSize(xs[..|xs| - 1], ys);
      assert |xs| * |ys| == (|xs| - 1) * |ys| + |ys|;
    }
  }

  /** Row `a` of an `n`-row grid of width `m` lies before the end of the grid. */
  lemma {:induction false} RowBefore(a: nat, b: nat, m: nat, n: nat)
    requires a < n && b < m
    ensures a * m + b < n * m
    decreases n
  {
    assert n * m == (n - 1) * m + m;
    if a < n - 1 {
      RowBefore(a, b, m, n - 1);
    }
  }

  /** Position `a * |ys| + b` of the grid pairs x entry `a` with y entry `b`. */
  lemma {:induction false} GridAt<X>(xs: seq<X>, ys: seq<X>, a: nat, b: nat)
    requires a < |xs| && b < |ys|
    ensures a * |ys| + b < |Grid(xs, ys)|
    ensures Grid(xs, ys)[a * |ys| + b] == (xs[a], ys[b])
    decreases |xs|
  {
    RowBefore(a, b, |ys|, |xs|);
    GridSize(xs, ys);
    var n := |xs| - 1;
    GridSize(xs[..n], ys);
    if a < n {
      RowBefore(a, b, |ys|, n);
      GridAt(xs[..n], ys, a, b);
    }
  }

  /** Every grid pair is made of an x entry and a y entry. */
  lemma {:induction false} GridMember<X>(xs: seq<X>, ys: seq<X>, k: nat)
    requires k < |Grid(xs, ys)|
    ensures exists a, b :: 0 <= a < |xs| && 0 <= b < |ys| && Grid(xs, ys)[k] == (xs[a], ys[b])
    decreases |xs|
  {
    var n := |xs| - 1;
    var g := Grid(xs[..n], ys);
    if k < |g| {
      GridMember(xs[..n], ys, k);
      var a, b :| 0 <= a < n && 0 <= b < |ys| && g[k] == (xs[..n][a], ys[b]);
      assert Grid(xs, ys)[k] == (xs[a], ys[b]);
    } else {
      assert Grid(xs, ys)[k] == (xs[n], ys[k - |g|]);
    }
  }

  /** The passes over a list of pairs, pass `k` numbered `k + 1`. */
  function Attempts<X, S>(f: (X, X, nat) -> Option<S>, ps: seq<(X, X)>): (r: seq<Option<S>>)
    ensures |r| == |ps|
  {
    seq(|ps|, k requires 0 <= k < |ps| => f(ps[k].0, ps[k].1, k + 1))
  }

  /** The passes over a list of pairs yield no values only where some pass yields nothing. */
  lemma AttemptsMissing<X, S>(f: (X, X, nat) -> Option<S>, ps: seq<(X, X)>)
    requires AllSome(Attempts(f, ps)).None?
    ensures exists k :: 0 <= k < |ps| && f(ps[k].0, ps[k].1, k + 1).None?
  {
    AllSomeMissing(Attempts(f, ps));
    var k :| 0 <= k < |ps| && Attempts(f, ps)[k].None?;
    assert f(ps[k].0, ps[k].1, k + 1).None?;
  }

  /** The passes of the inner loop for x entry `x`, numbered on from `start`. */
  function RowAttempts<X, S>(f: (X, X, nat) -> Option<S>, x: X, ys: seq<X>, start: nat): seq<Option<S>>
    decreases |ys|
  {
    if ys == [] then []
    else
      var n := |ys| - 1;
      RowAttempts(f, x, ys[..n], start) + [f(x, ys[n], start + n)]
  }

  /** The passes of the nested loops, row by row, numbered as the loops number them. */
  function GridAttempts<X, S>(f: (X, X, nat) -> Option<S>, xs: seq<X>, ys: seq<X>): seq<Option<S>>
    decreases |xs|
  {
    if xs == [] then []
    else
      var init := GridAttempts(f, xs[..|xs| - 1], ys);
      init + RowAttempts(f, xs[|xs| - 1], ys, |init| + 1)
  }

  lemma {:induction false} RowAttemptsSize<X, S>(f: (X, X, nat) -> Option<S>, x: X, ys: seq<X>, start: nat)
    ensures |RowAttempts(f, x, ys, start)| == |ys|
    decreases |ys|
  {
    if ys != [] {
      RowAttemptsSize(f, x, ys[..|ys| - 1], start);
    }
  }

  /** Pass `b` of the inner loop pairs `x` with y entry `b`, under number `start + b`. */
  lemma {:induction false} RowAttemptsAt<X, S>(f: (X, X, nat) -> Option<S>, x: X, ys: seq<X>, start: nat, b: nat)
    requires b < |ys|
    ensures |RowAttempts(f, x, ys, start)| == |ys|
    ensures RowAttempts(f, x, ys, start)[b] == f(x, ys[b], start + b)
    decreases |ys|
  {
    var n := |ys| - 1;
    RowAttemptsSize(f, x, ys[..n], start);
    if b < n {
      RowAttemptsAt(f, x, ys[..n], start, b);
    }
  }

  lemma {:induction false} GridAttemptsSize<X, S>(f: (X, X, nat) -> Option<S>, xs: seq<X>, ys: seq<X>)
    ensures |GridAttempts(f, xs, ys)| == |Grid(xs, ys)|
    decreases |xs|
  {
    if xs != [] {
      GridAttemptsSize(f, xs[..|xs| - 1], ys);
      RowAttemptsSize(f, xs[|xs| - 1], ys, |GridAttempts(f, xs[..|xs| - 1], ys)| + 1);
    }
  }

  /** Pass `k` of the nested loops is the pair at position `k` of the grid, numbered `k + 1`. */
  lemma {:induction false} GridAttemptsAt<X, S>(f: (X, X, nat) -> Option<S>, xs: seq<X>, ys: seq<X>, k: nat)
    requires k < |Grid(xs, ys)|
    ensures |GridAttempts(f, xs, ys)| == |Grid(xs, ys)|
    ensures GridAttempts(f, xs, ys)[k] == f(Grid(xs, ys)[k].0, Grid(xs, ys)[k].1, k + 1)
    decreases |xs|
  {
    var n := |xs| - 1;
    var init := GridAttempts(f, xs[..n], ys);
    var row := RowAttempts(f, xs[n], ys, |init| + 1);
    var g := Grid(xs[..n], ys);
    assert GridAttempts(f, xs, ys) == init + row;
    GridAttemptsSize(f, xs[..n], ys);
    RowAttemptsSize(f, xs[n], ys, |init| + 1);
    if k < |g| {
      GridAttemptsAt(f, xs[..n], ys, k);
      assert Grid(xs, ys)[k] == g[k];
    } else {
      RowAttemptsAt(f, xs[n], ys, |init| + 1, k - |g|);
      assert Grid(xs, ys)[k] == (xs[n], ys[k - |g|]);
    }
  }

  /** The nested loops make exactly the passes over the grid, in grid order. */
  lemma GridAttemptsFlat<X, S>(f: (X, X, nat) -> Option<S>, xs: seq<X>, ys: seq<X>)
    ensures GridAttempts(f, xs, ys) == Attempts(f, Grid(xs, ys))
  {
    GridAttemptsSize(f, xs, ys);
    forall k | 0 <= k < |Grid(xs, ys)|
      ensures GridAttempts(f, xs, ys)[k] == Attempts(f, Grid(xs, ys))[k]
    {
      GridAttemptsAt(f, xs, ys, k);
    }
  }

  /** The inner loop with one more y entry. */
  lemma RowAttemptsNext<X, S>(f: (X, X, nat) -> Option<S>, x: X, ys: seq<X>, start: nat, b: nat)
    requires b < |ys|
    ensures RowAttempts(f, x, ys[..b + 1], start) == RowAttempts(f, x, ys[..b], start) + [f(x, ys[b], start + b)]
  {
    assert ys[..b + 1][..b] == ys[..b];
  }

  /** One pass of the inner loop: its value extends those collected so far, and a gap ends the row without values. */
  lemma RowStep<X, S>(f: (X, X, nat) -> Option<S>, x: X, ys: seq<X>, start: nat, b: nat, done: seq<S>, o: Option<S>)
    requires b < |ys| && AllSome(RowAttempts(f, x, ys[..b], start)) == Some(done)
    requires o == f(x, ys[b], start + b)
    ensures o.Some? ==> AllSome(RowAttempts(f, x, ys[..b + 1], start)) == Some(done + [o.value])
    ensures o.None? ==> AllSome(RowAttempts(f, x, ys, start)).None?
  {
    RowAttemptsNext(f, x, ys, start, b);
    AllSomeSnoc(RowAttempts(f, x, ys[..b], start), o, done);
    if o.None? {
      RowAttemptsPrefixFails(f, x, ys, start, b + 1);
    }
  }

  /** The outer loop with one more x entry, numbered on after the rows before it. */
  lemma GridAttemptsNext<X, S>(f: (X, X, nat) -> Option<S>, xs: seq<X>, ys: seq<X>, a: nat)
    requires a < |xs|
    ensures GridAttempts(f, xs[..a + 1], ys)
         == GridAttempts(f, xs[..a], ys) + RowAttempts(f, xs[a], ys, |GridAttempts(f, xs[..a], ys)| + 1)
  {
    assert xs[..a + 1][..a] == xs[..a];
  }

  /** One pass of the outer loop: the row's values extend those collected so far, and a gap ends the loops without values. */
  lemma GridStep<X, S>(f: (X, X, nat) -> Option<S>, xs: seq<X>, ys: seq<X>, a: nat, done: seq<S>, r: Option<seq<S>>)
    requires a < |xs| && AllSome(GridAttempts(f, xs[..a], ys)) == Some(done)
    requires r == AllSome(RowAttempts(f, xs[a], ys, |GridAttempts(f, xs[..a], ys)| + 1))
    ensures |GridAttempts(f, xs[..a + 1], ys)| == |GridAttempts(f, xs[..a], ys)| + |ys|
    ensures r.Some? ==> AllSome(GridAttempts(f, xs[..a + 1], ys)) == Some(done + r.value)
    ensures r.None? ==> AllSome(GridAttempts(f, xs, ys)).None?
  {
    var p := GridAttempts(f, xs[..a], ys);
    var q := RowAttempts(f, xs[a], ys, |p| + 1);
    GridAttemptsNext(f, xs, ys, a);
    RowAttemptsSize(f, xs[a], ys, |p| + 1);
    if r.None? {
      AllSomeAppendNone(p, q);
      GridAttemptsPrefixFails(f, xs, ys, a + 1);
    } else {
      AllSomeAppend(p, q, done, r.value);
    }
  }

  /** Once the passes over the first y entries yield a gap, so do those over all of them. */
  lemma {:induction false} RowAttemptsPrefixFails<X, S>(f: (X, X, nat) -> Option<S>, x: X, ys: seq<X>, start: nat, m: nat)
    requires m <= |ys| && AllSome(RowAttempts(f, x, ys[..m], start)).None?
    ensures AllSome(RowAttempts(f, x, ys, start)).None?
    decreases |ys| - m
  {
    if m < |ys| {
      var p := RowAttempts(f, x, ys[..m], start);
      RowAttemptsNext(f, x, ys, start, m);
      AllSomePrefixNone(p + [f(x, ys[m], start + m)], |p|);
      RowAttemptsPrefixFails(f, x, ys, start, m + 1);
    } else {
      assert ys[..m] == ys;
    }
  }

  /** Once the passes over the first rows yield a gap, so do those over all rows. */
  lemma {:induction false} GridAttemptsPrefixFails<X, S>(f: (X, X, nat) -> Option<S>, xs: seq<X>, ys: seq<X>, m: nat)
    requires m <= |xs| && AllSome(GridAttempts(f, xs[..m], ys)).None?
    ensures AllSome(GridAttempts(f, xs, ys)).None?
    decreases |xs| - m
  {
    if m < |xs| {
      var p := GridAttempts(f, xs[..m], ys);
      GridAttemptsNext(f, xs, ys, m);
      AllSomePrefixNone(p + RowAttempts(f, xs[m], ys, |p| + 1), |p|);
      GridAttemptsPrefixFails(f, xs, ys, m + 1);
    } else {
      assert xs[..m] == xs;
    }
  }

  // ---------------------------------------------------------------------------
  // Collecting the values of the passes

  /** The values of a list of optional values, or `None` as soon as one is missing. */
  function AllSome<T>(os: seq<Option<T>>): (r: Option<seq<T>>)
    ensures r.Some? ==> |r.value| == |os|
    decreases |os|
  {
    if os == [] then Some([])
    else
      var n := |os| - 1;
      match AllSome(os[..n])
      case None => None
      case Some(vs) => if os[n].Some? then Some(vs + [os[n].value]) else None
  }

  /** The values are missing only where some entry is. */
  lemma {:induction false} AllSomeMissing<T>(os: seq<Option<T>>)
    requires AllSome(os).None?
    ensures exists k :: 0 <= k < |os| && os[k].None?
    decreases |os|
  {
    var n := |os| - 1;
    if AllSome(os[..n]).None? {
      AllSomeMissing(os[..n]);
      var k :| 0 <= k < n && os[..n][k].None?;
      assert os[k] == os[..n][k];
    }
  }

  /** Collected values are the entries of the list, one for one. */
  lemma {:induction false} AllSomeValues<T>(os: seq<Option<T>>, k: nat)
    requires AllSome(os).Some? && k < |os|
    ensures |AllSome(os).value| == |os| && os[k] == Some(AllSome(os).value[k])
    decreases |os|
  {
    var n := |os| - 1;
    if n > 0 {
      AllSomeValues(os[..n], if k < n then k else 0);
    }
  }

  /** A value at the end extends the values collected so far; a gap at the end leaves none. */
  lemma AllSomeSnoc<T>(p: seq<Option<T>>, o: Option<T>, done: seq<T>)
    requires AllSome(p) == Some(done)
    ensures o.Some? ==> AllSome(p + [o]) == Some(done + [o.value])
    ensures o.None? ==> AllSome(p + [o]).None?
  {
    assert (p + [o])[..|p|] == p;
  }

  /** The values of two lists taken one after the other. */
  lemma AllSomeAppend<T>(p: seq<Option<T>>, q: seq<Option<T>>, u: seq<T>, w: seq<T>)
    requires AllSome(p) == Some(u) && AllSome(q) == Some(w)
    ensures AllSome(p + q) == Some(u + w)
  {
    if p != [] { AllSomeValues(p, 0); }
    if q != [] { AllSomeValues(q, 0); }
    forall k | 0 <= k < |p + q| ensures (p + q)[k] == Some((u + w)[k]) {
      if k < |p| {
        AllSomeValues(p, k);
      } else {
        AllSomeValues(q, k - |p|);
      }
    }
    AllSomeOfValues(p + q, u + w);
  }

  /** A list with a gap has no values. */
  lemma {:induction false} AllSomeGap<T>(os: seq<Option<T>>, k: nat)
    requires k < |os| && os[k].None?
    ensures AllSome(os).None?
    decreases |os|
  {
    var n := |os| - 1;
    if k < n {
      AllSomeGap(os[..n], k);
    }
  }

  /** A list with a gap has no values after anything. */
  lemma AllSomeAppendNone<T>(p: seq<Option<T>>, q: seq<Option<T>>)
    requires AllSome(q).None?
    ensures AllSome(p + q).None?
  {
    AllSomeMissing(q);
    var k :| 0 <= k < |q| && q[k].None?;
    AllSomeGap(p + q, |p| + k);
  }

  /** A list whose entries are the given values, in order, has exactly those values. */
  lemma {:induction false} AllSomeOfValues<T>(os: seq<Option<T>>, vs: seq<T>)
    requires |os| == |vs| && forall k :: 0 <= k < |os| ==> os[k] == Some(vs[k])
    ensures AllSome(os) == Some(vs)
    decreases |os|
  {
    if os != [] {
      var n := |os| - 1;
      AllSomeOfValues(os[..n], vs[..n]);
      assert vs[..n] + [vs[n]] == vs;
    }
  }

  /** Once a prefix has a gap, so has the whole list. */
  lemma AllSomePrefixNone<T>(os: seq<Option<T>>, n: nat)
    requires n <= |os| && AllSome(os[..n]).None?
    ensures AllSome(os).None?
  {
    AllSomeMissing(os[..n]);
    var k :| 0 <= k < n && os[..n][k].None?;
    AllSomeGap(os, k);
  }

  // ---------------------------------------------------------------------------
  // The loop over the datasets: each contributes its values, in order

  /** The values of every entry one after the other, or `None` once an entry has none. */
  function Concat<D, S>(g: D -> Option<seq<S>>, ds: seq<D>): Option<seq<S>>
    decreases |ds|
  {
    if ds == [] then Some([])
    else
      var n := |ds| - 1;
      match (Concat(g, ds[..n]), g(ds[n]))
      case (Some(s), Some(t)) => Some(s + t)
      case _ => None
  }

  /** Once a prefix of the entries has no values, neither have all of them. */
  lemma {:induction false} ConcatPrefixFails<D, S>(g: D -> Option<seq<S>>, ds: seq<D>, n: nat)
    requires n <= |ds| && Concat(g, ds[..n]).None?
    ensures Concat(g, ds).None?
    decreases |ds| - n
  {
    if n < |ds| {
      assert ds[..n + 1][..n] == ds[..n];
      ConcatPrefixFails(g, ds, n + 1);
    } else {
      assert ds[..n] == ds;
    }
  }

  /** One pass of the loop over the entries: their values extend those so far, and a gap ends the loop. */
  lemma ConcatStep<D, S>(g: D -> Option<seq<S>>, ds: seq<D>, i: nat, done: seq<S>, r: Option<seq<S>>)
    requires i < |ds| && Concat(g, ds[..i]) == Some(done) && r == g(ds[i])
    ensures r.Some? ==> Concat(g, ds[..i + 1]) == Some(done + r.value)
    ensures r.None? ==> Concat(g, ds).None?
  {
    assert ds[..i + 1][..i] == ds[..i];
    if r.None? {
      ConcatPrefixFails(g, ds, i + 1);
    }
  }

  /** Every collected value is value `j` of entry `i`. */
  lemma {:induction false} ConcatFrom<D, S>(g: D -> Option<seq<S>>, ds: seq<D>, k: nat) returns (i: nat, j: nat)
    requires Concat(g, ds).Some? && k < |Concat(g, ds).value|
    ensures i < |ds| && g(ds[i]).Some? && j < |g(ds[i]).value| && Concat(g, ds).value[k] == g(ds[i]).value[j]
    decreases |ds|
  {
    var n := |ds| - 1;
    var s := Concat(g, ds[..n]).value;
    if k < |s| {
      i, j := ConcatFrom(g, ds[..n], k);
      assert ds[..n][i] == ds[i];
    } else {
      i, j := n, k - |s|;
    }
  }
}
