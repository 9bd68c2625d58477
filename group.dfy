/**
 * The series grouper: the derived series are sorted into groups of series that
 * plot the same x quantity against the same y quantity (by name), groups in the
 * order their first series appears and members in input order; and the flag
 * (`multisets`, recomputed as `enoughsets`) saying whether some group has more
 * than one member.
 */
module Grouping {
  import opened Common
  import opened Derive

  /** The quantity names a series is grouped by. */
  function KeyOf(s: Series): (string, string) {
    (s.xquant.name, s.yquant.name)
  }

  /** The distinct keys of `xs`, in the order they are first seen. */
  function Keys(xs: seq<Series>): seq<(string, string)>
    decreases |xs|
  {
    if xs == [] then []
    else
      var ks := Keys(xs[..|xs| - 1]);
      if KeyOf(xs[|xs| - 1]) in ks then ks else ks + [KeyOf(xs[|xs| - 1])]
  }

  /** The series of `xs` with key `k`, in input order. */
  function Members(xs: seq<Series>, k: (string, string)): seq<Series>
    decreases |xs|
  {
    if xs == [] then []
    else
      var m := Members(xs[..|xs| - 1], k);
      if KeyOf(xs[|xs| - 1]) == k then m + [xs[|xs| - 1]] else m
  }

  /** One group per key, in first-seen order, each holding the series with that key. */
  function Grouping(xs: seq<Series>): (gs: seq<seq<Series>>)
    ensures |gs| == |Keys(xs)|
  {
    var ks := Keys(xs);
    seq(|ks|, i requires 0 <= i < |ks| => Members(xs, ks[i]))
  }

  /** The key sequence of the input, one key per series. */
  function KeySeq(xs: seq<Series>): (r: seq<(string, string)>)
    ensures |r| == |xs|
  {
    seq(|xs|, i requires 0 <= i < |xs| => KeyOf(xs[i]))
  }

  /** The series of all groups, group after group. */
  function Flatten(gs: seq<seq<Series>>): seq<Series>
    decreases |gs|
  {
    if gs == [] then [] else Flatten(gs[..|gs| - 1]) + gs[|gs| - 1]
  }

  // ---------------------------------------------------------------------------
  // The keys

  /** No key is listed twice. */
  lemma {:induction false} KeysDistinct(xs: seq<Series>, a: nat, b: nat)
    requires a < b < |Keys(xs)|
    ensures Keys(xs)[a] != Keys(xs)[b]
    decreases |xs|
  {
    var init := xs[..|xs| - 1];
    if b < |Keys(init)| {
      KeysDistinct(init, a, b);
    }
  }

  /** A key is listed exactly when some series has it. */
  lemma {:induction false} KeysComplete(xs: seq<Series>, k: (string, string))
    ensures k in Keys(xs) <==> k in KeySeq(xs)
    decreases |xs|
  {
    if xs != [] {
      var init := xs[..|xs| - 1];
      KeysComplete(init, k);
      assert KeySeq(xs) == KeySeq(init) + [KeyOf(xs[|xs| - 1])];
    }
  }

  /** Keys are listed in the order of their first series. */
  lemma {:induction false} KeysFirstSeen(xs: seq<Series>, a: nat, b: nat)
    requires a < b < |Keys(xs)|
    ensures Find(KeySeq(xs), Keys(xs)[a]).Some? && Find(KeySeq(xs), Keys(xs)[b]).Some?
    ensures Find(KeySeq(xs), Keys(xs)[a]).value < Find(KeySeq(xs), Keys(xs)[b]).value
    decreases |xs|
  {
    var init := xs[..|xs| - 1];
    var last := KeyOf(xs[|xs| - 1]);
    assert KeySeq(xs) == KeySeq(init) + [last];
    KeysComplete(init, Keys(xs)[a]);
    FindPrefix(KeySeq(init), last, Keys(xs)[a]);
    if b < |Keys(init)| {
      KeysFirstSeen(init, a, b);
      KeysComplete(init, Keys(xs)[b]);
      FindPrefix(KeySeq(init), last, Keys(xs)[b]);
    } else {
      KeysComplete(init, last);
      FindNew(KeySeq(init), last);
    }
  }

  /** Appending a value does not move the first occurrence of one already present. */
  lemma FindPrefix<T>(ns: seq<T>, x: T, n: T)
    requires n in ns
    ensures Find(ns + [x], n) == Find(ns, n)
  {
    var i :| 0 <= i < |ns| && ns[i] == n;
    var j := Find(ns, n).value;
    FindFirst(ns + [x], j);
  }

  /** A value appended to a sequence without it is first found at the end. */
  lemma FindNew<T>(ns: seq<T>, x: T)
    requires x !in ns
    ensures Find(ns + [x], x) == Some(|ns|)
  {
    FindFirst(ns + [x], |ns|);
  }

  // ---------------------------------------------------------------------------
  // The members of one key

  /** Every member has the key. */
  lemma {:induction false} MembersKey(xs: seq<Series>, k: (string, string), j: nat)
    requires j < |Members(xs, k)|
    ensures KeyOf(Members(xs, k)[j]) == k
    decreases |xs|
  {
    var init := xs[..|xs| - 1];
    if j < |Members(init, k)| {
      MembersKey(init, k, j);
    }
  }

  /**
   * The members are the series with the key, in input order: `idx` lists their
   * positions, increasing, and every position holding the key is listed.
   */
  lemma {:induction false} MembersIndices(xs: seq<Series>, k: (string, string)) returns (idx: seq<nat>)
    ensures |idx| == |Members(xs, k)|
    ensures forall j :: 0 <= j < |idx| ==> idx[j] < |xs| && xs[idx[j]] == Members(xs, k)[j]
    ensures forall a, b :: 0 <= a < b < |idx| ==> idx[a] < idx[b]
    ensures forall i :: 0 <= i < |xs| && KeyOf(xs[i]) == k ==> i in idx
    decreases |xs|
  {
    if xs == [] {
      idx := [];
    } else {
      var n := |xs| - 1;
      var init := xs[..n];
      var p := MembersIndices(init, k);
      if KeyOf(xs[n]) == k {
        assert Members(xs, k) == Members(init, k) + [xs[n]];
        idx := p + [n];
        forall j | 0 <= j < |p| ensures xs[p[j]] == Members(xs, k)[j] {
          assert xs[p[j]] == init[p[j]];
        }
      } else {
        assert Members(xs, k) == Members(init, k);
        idx := p;
        forall j | 0 <= j < |p| ensures xs[p[j]] == Members(xs, k)[j] {
          assert xs[p[j]] == init[p[j]];
        }
      }
      forall i | 0 <= i < n && KeyOf(xs[i]) == k ensures i in p {
        assert xs[i] == init[i];
      }
    }
  }

  /** A key no series has has no members. */
  lemma {:induction false} MembersOfAbsent(xs: seq<Series>, k: (string, string))
    requires k !in KeySeq(xs)
    ensures Members(xs, k) == []
    decreases |xs|
  {
    if xs != [] {
      var init := xs[..|xs| - 1];
      assert KeySeq(xs) == KeySeq(init) + [KeyOf(xs[|xs| - 1])];
      MembersOfAbsent(init, k);
    }
  }

  /** A key of the input has at least one member. */
  lemma MembersOfKey(xs: seq<Series>, k: (string, string))
    requires k in KeySeq(xs)
    ensures |Members(xs, k)| > 0
  {
    var i :| 0 <= i < |xs| && KeySeq(xs)[i] == k;
    var idx := MembersIndices(xs, k);
    assert i in idx;
  }

  // ---------------------------------------------------------------------------
  // The groups

  /** Every group is non-empty and its members all have the group's key. */
  lemma GroupKeys(xs: seq<Series>, g: nat)
    requires g < |Grouping(xs)|
    ensures |Grouping(xs)[g]| > 0
    ensures forall j :: 0 <= j < |Grouping(xs)[g]| ==> KeyOf(Grouping(xs)[g][j]) == Keys(xs)[g]
  {
    var k := Keys(xs)[g];
    KeysComplete(xs, k);
    MembersOfKey(xs, k);
    forall j | 0 <= j < |Grouping(xs)[g]| ensures KeyOf(Grouping(xs)[g][j]) == k {
      MembersKey(xs, k, j);
    }
  }

  /** Every series lands in exactly one group: the one of its key. */
  lemma GroupOf(xs: seq<Series>, i: nat) returns (g: nat)
    requires i < |xs|
    ensures g < |Grouping(xs)| && Keys(xs)[g] == KeyOf(xs[i]) && xs[i] in Grouping(xs)[g]
    ensures forall h :: 0 <= h < |Grouping(xs)| && xs[i] in Grouping(xs)[h] ==> h == g
  {
    var k := KeyOf(xs[i]);
    assert KeySeq(xs)[i] == k;
    KeysComplete(xs, k);
    g :| 0 <= g < |Keys(xs)| && Keys(xs)[g] == k;
    var idx := MembersIndices(xs, k);
    var j :| 0 <= j < |idx| && idx[j] == i;
    assert Grouping(xs)[g][j] == xs[i];
    forall h | 0 <= h < |Grouping(xs)| && xs[i] in Grouping(xs)[h] ensures h == g {
      var m :| 0 <= m < |Grouping(xs)[h]| && Grouping(xs)[h][m] == xs[i];
      MembersKey(xs, Keys(xs)[h], m);
      if h < g {
        KeysDistinct(xs, h, g);
      } else if g < h {
        KeysDistinct(xs, g, h);
      }
    }
  }

  /** The last series joins the group of its key, or opens a new group at the end. */
  lemma GroupingSnoc(xs: seq<Series>, s: Series)
    ensures match Find(Keys(xs), KeyOf(s))
      case Some(j) => Grouping(xs + [s]) == Grouping(xs)[j := Grouping(xs)[j] + [s]]
      case None => Grouping(xs + [s]) == Grouping(xs) + [[s]]
  {
    var ys := xs + [s];
    assert ys[..|ys| - 1] == xs;
    var k := KeyOf(s);
    match Find(Keys(xs), k)
    case Some(j) =>
      assert Keys(ys) == Keys(xs);
      forall g | 0 <= g < |Keys(xs)|
        ensures Grouping(ys)[g] == Grouping(xs)[j := Grouping(xs)[j] + [s]][g]
      {
        assert Keys(ys)[g] == k <==> g == j by {
          if g < j { KeysDistinct(xs, g, j); }
          if j < g { KeysDistinct(xs, j, g); }
        }
      }
    case None =>
      assert Keys(ys) == Keys(xs) + [k];
      forall g | 0 <= g < |Keys(xs)| ensures Grouping(ys)[g] == Grouping(xs)[g] {
        assert Keys(ys)[g] != k;
      }
      KeysComplete(xs, k);
      MembersOfAbsent(xs, k);
      assert Grouping(ys)[|Keys(xs)|] == [s];
  }

  /** Adding one member to one group adds that series to the flattened groups. */
  lemma {:induction false} FlattenUpdate(gs: seq<seq<Series>>, j: nat, s: Series)
    requires j < |gs|
    ensures multiset(Flatten(gs[j := gs[j] + [s]])) == multiset(Flatten(gs)) + multiset{s}
    decreases |gs|
  {
    var n := |gs| - 1;
    var hs := gs[j := gs[j] + [s]];
    assert Flatten(gs) == Flatten(gs[..n]) + gs[n];
    assert Flatten(hs) == Flatten(hs[..n]) + hs[n];
    if j < n {
      assert hs[..n] == gs[..n][j := gs[j] + [s]];
      assert hs[n] == gs[n];
      FlattenUpdate(gs[..n], j, s);
    } else {
      assert hs[..n] == gs[..n];
      assert hs[n] == gs[n] + [s];
    }
  }

  /** The groups partition the input: together they hold every series exactly as often as the input does. */
  lemma {:induction false} GroupingPartition(xs: seq<Series>)
    ensures multiset(Flatten(Grouping(xs))) == multiset(xs)
    decreases |xs|
  {
    if xs != [] {
      var init := xs[..|xs| - 1];
      var s := xs[|xs| - 1];
      assert init + [s] == xs;
      GroupingPartition(init);
      GroupingSnoc(init, s);
      match Find(Keys(init), KeyOf(s))
      case Some(j) =>
        FlattenUpdate(Grouping(init), j, s);
      case None =>
        var gs := Grouping(init) + [[s]];
        assert gs[..|gs| - 1] == Grouping(init);
    }
  }

  // ---------------------------------------------------------------------------
  // The sorting loop

  /**
   * Sorting the series by quantities: each series joins the first group whose
   * first member has the same x and y quantity names, or opens a new group.
   */
  method Group(xydata: seq<Series>) returns (xydatasets: seq<seq<Series>>)
    ensures xydatasets == Grouping(xydata)
  {
    xydatasets := [];
    var n := 0;
    while n < |xydata|
      invariant 0 <= n <= |xydata|
      invariant xydatasets == Grouping(xydata[..n])
    {
      var data := xydata[n];
      ghost var xs := xydata[..n];
      assert xydata[..n + 1] == xs + [data];
      GroupingSnoc(xs, data);
      if |xydatasets| == 0 {
        xydatasets := xydatasets + [[data]];
      } else {
        forall g | 0 <= g < |xydatasets| ensures |xydatasets[g]| > 0 && KeyOf(xydatasets[g][0]) == Keys(xs)[g] {
          GroupKeys(xs, g);
        }
        var included := false;
        var index := 0;
        while index < |xydatasets|
          invariant 0 <= index <= |xydatasets|
          invariant forall g :: 0 <= g < index ==> Keys(xs)[g] != KeyOf(data)
          invariant xydatasets == Grouping(xs) && !included
        {
          if KeyOf(xydatasets[index][0]) == KeyOf(data) {
            FindFirst(Keys(xs), index);
            xydatasets := xydatasets[index := xydatasets[index] + [data]];
            included := true;
            break;
          }
          index := index + 1;
        }
        if !included {
          xydatasets := xydatasets + [[data]];
        }
      }
      n := n + 1;
    }
    assert xydata[..n] == xydata;
  }

  // ---------------------------------------------------------------------------
  // multisets / enoughsets

  /** Some group holds more than one series. */
  predicate HasMultiple(gs: seq<seq<Series>>) {
    exists i :: 0 <= i < |gs| && |gs[i]| > 1
  }

  /** The flag loop over the groups (`multisets`; `enoughsets` is the same loop again). */
  method MultiSets(xydatasets: seq<seq<Series>>) returns (multisets: bool)
    ensures multisets <==> HasMultiple(xydatasets)
  {
    multisets := false;
    var i := 0;
    while i < |xydatasets|
      invariant 0 <= i <= |xydatasets|
      invariant multisets <==> exists g :: 0 <= g < i && |xydatasets[g]| > 1
    {
      if |xydatasets[i]| > 1 {
        multisets := true;
      }
      i := i + 1;
    }
  }

  /** Some group has several members exactly when two series share their quantity names. */
  lemma MultipleIffShared(xs: seq<Series>)
    ensures HasMultiple(Grouping(xs)) <==>
      exists i, j :: 0 <= i < j < |xs| && KeyOf(xs[i]) == KeyOf(xs[j])
  {
    if HasMultiple(Grouping(xs)) {
      var g :| 0 <= g < |Grouping(xs)| && |Grouping(xs)[g]| > 1;
      var k := Keys(xs)[g];
      var idx := MembersIndices(xs, k);
      MembersKey(xs, k, 0);
      MembersKey(xs, k, 1);
      assert KeyOf(xs[idx[0]]) == KeyOf(xs[idx[1]]);
    }
    if exists i, j :: 0 <= i < j < |xs| && KeyOf(xs[i]) == KeyOf(xs[j]) {
      var i, j :| 0 <= i < j < |xs| && KeyOf(xs[i]) == KeyOf(xs[j]);
      var g := GroupOf(xs, i);
      var idx := MembersIndices(xs, Keys(xs)[g]);
      assert i in idx && j in idx;
      var a :| 0 <= a < |idx| && idx[a] == i;
      var b :| 0 <= b < |idx| && idx[b] == j;
      assert a != b;
      assert |Grouping(xs)[g]| > 1;
    }
  }
}
