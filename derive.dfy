/**
 * The series deriver: for every kept dataset, the x and y quantities among its
 * columns, and one series for every (x, y) pair in x-major order, labelled with
 * the dataset name (a single pair) or the name and a running number. A sample is
 * `factor * (float(raw) + offset)` of the quantity.
 *
 * The catalog is read through its values: classification is over before the
 * deriver starts, and nothing changes a quantity afterwards. A `float()` that
 * raises, or a row too short for the column, ends the program: the model gives
 * `None`.
 */
module Derive {
  import opened Common
  import opened Text
  import opened Numbers
  import opened Quantities
  import opened Report
  import opened Grids

  /** `XYdata`: a header, the x and y quantity, and the scaled samples of both. */
  datatype Series = Series(header: string, xquant: QuantityValue, yquant: QuantityValue, xdata: seq<real>, ydata: seq<real>)

  // ---------------------------------------------------------------------------
  // The x and y quantities of one dataset

  /** The catalog entries of a name and a type, in catalog order. */
  function Matching(vs: seq<QuantityValue>, n: string, t: string): seq<QuantityValue>
    decreases |vs|
  {
    if vs == [] then []
    else
      var last := vs[|vs| - 1];
      Matching(vs[..|vs| - 1], n, t) + (if last.name == n && last.kind == Some(t) then [last] else [])
  }

  /**
   * The quantities of a type for a dataset's columns: column by column, every
   * catalog entry of that name and type, so a repeated column gives its quantity
   * again.
   */
  function AxisQuants(quants: seq<string>, vs: seq<QuantityValue>, t: string): seq<QuantityValue>
    decreases |quants|
  {
    if quants == [] then []
    else AxisQuants(quants[..|quants| - 1], vs, t) + Matching(vs, quants[|quants| - 1], t)
  }

  lemma {:induction false} MatchingSound(vs: seq<QuantityValue>, n: string, t: string, k: nat)
    requires k < |Matching(vs, n, t)|
    ensures Matching(vs, n, t)[k] in vs
    ensures Matching(vs, n, t)[k].name == n && Matching(vs, n, t)[k].kind == Some(t)
    decreases |vs|
  {
    var init := vs[..|vs| - 1];
    if k < |Matching(init, n, t)| {
      MatchingSound(init, n, t, k);
    }
  }

  /** The quantities of a type for a dataset are catalog entries named after one of its columns. */
  lemma {:induction false} AxisQuantsSound(quants: seq<string>, vs: seq<QuantityValue>, t: string, k: nat)
    requires k < |AxisQuants(quants, vs, t)|
    ensures AxisQuants(quants, vs, t)[k] in vs && AxisQuants(quants, vs, t)[k].name in quants
    ensures AxisQuants(quants, vs, t)[k].kind == Some(t)
    decreases |quants|
  {
    var init := quants[..|quants| - 1];
    var r := AxisQuants(init, vs, t);
    if k < |r| {
      AxisQuantsSound(init, vs, t, k);
    } else {
      MatchingSound(vs, quants[|quants| - 1], t, k - |r|);
    }
  }

  lemma {:induction false} MatchingComplete(vs: seq<QuantityValue>, n: string, t: string, i: nat)
    requires i < |vs| && vs[i].name == n && vs[i].kind == Some(t)
    ensures vs[i] in Matching(vs, n, t)
    decreases |vs|
  {
    if i < |vs| - 1 {
      MatchingComplete(vs[..|vs| - 1], n, t, i);
    }
  }

  /** Every catalog entry of the type whose name is a column of the dataset is among its quantities of that type. */
  lemma {:induction false} AxisQuantsComplete(quants: seq<string>, vs: seq<QuantityValue>, t: string, i: nat, c: nat)
    requires i < |vs| && vs[i].kind == Some(t)
    requires c < |quants| && quants[c] == vs[i].name
    ensures vs[i] in AxisQuants(quants, vs, t)
    decreases |quants|
  {
    if c < |quants| - 1 {
      AxisQuantsComplete(quants[..|quants| - 1], vs, t, i, c);
    } else {
      MatchingComplete(vs, quants[c], t, i);
    }
  }

  /** Two columns of the same name, in any catalog, each give every catalog entry of that name. */
  lemma RepeatedColumnRepeats(quants: seq<string>, vs: seq<QuantityValue>, n: string, t: string)
    ensures AxisQuants(quants + [n, n], vs, t) == AxisQuants(quants, vs, t) + Matching(vs, n, t) + Matching(vs, n, t)
  {
    var qs := quants + [n, n];
    assert qs[..|qs| - 1] == quants + [n];
    assert (quants + [n])[..|quants|] == quants;
  }

  /** The inner loop for one column name: every catalog entry of that name goes to its axis. */
  method MatchColumn(vs: seq<QuantityValue>, quant: string, xs: seq<QuantityValue>, ys: seq<QuantityValue>)
    returns (xquants: seq<QuantityValue>, yquants: seq<QuantityValue>)
    ensures xquants == xs + Matching(vs, quant, "xdata")
    ensures yquants == ys + Matching(vs, quant, "ydata")
  {
    xquants, yquants := xs, ys;
    var k := 0;
    while k < |vs|
      invariant 0 <= k <= |vs|
      invariant xquants == xs + Matching(vs[..k], quant, "xdata")
      invariant yquants == ys + Matching(vs[..k], quant, "ydata")
    {
      assert vs[..k + 1][..k] == vs[..k];
      if quant == vs[k].name {
        if vs[k].kind == Some("xdata") {
          xquants := xquants + [vs[k]];
        }
        if vs[k].kind == Some("ydata") {
          yquants := yquants + [vs[k]];
        }
      }
      k := k + 1;
    }
    assert vs[..k] == vs;
  }

  /** The loops collecting `xquants` and `yquants`: for every column, every catalog entry of that name. */
  method SplitAxes(quants: seq<string>, vs: seq<QuantityValue>) returns (xquants: seq<QuantityValue>, yquants: seq<QuantityValue>)
    ensures xquants == AxisQuants(quants, vs, "xdata")
    ensures yquants == AxisQuants(quants, vs, "ydata")
  {
    xquants := [];
    yquants := [];
    var c := 0;
    while c < |quants|
      invariant 0 <= c <= |quants|
      invariant xquants == AxisQuants(quants[..c], vs, "xdata")
      invariant yquants == AxisQuants(quants[..c], vs, "ydata")
    {
      assert quants[..c + 1][..c] == quants[..c];
      xquants, yquants := MatchColumn(vs, quants[c], xquants, yquants);
      c := c + 1;
    }
    assert quants[..c] == quants;
  }

  // ---------------------------------------------------------------------------
  // Columns of samples

  /** A value of the quantity, offset and then scaled. */
  function Scaled(q: QuantityValue, x: real): real {
    q.factor * (x + q.offset)
  }

  /** `factor * (float(raw) + offset)` */
  function Sample(q: QuantityValue, raw: string, nt: NumberText): Option<real> {
    match nt.parse(raw) case None => None case Some(x) => Some(Scaled(q, x))
  }

  /** Entry `i` of every row, scaled for the quantity; `None` when a row is too short or holds no number there. */
  function ColumnOf(rows: seq<seq<string>>, i: nat, q: QuantityValue, nt: NumberText): Option<seq<real>>
    decreases |rows|
  {
    if rows == [] then Some([])
    else
      var n := |rows| - 1;
      match ColumnOf(rows[..n], i, q, nt)
      case None => None
      case Some(c) =>
        if i < |rows[n]| && Sample(q, rows[n][i], nt).Some? then Some(c + [Sample(q, rows[n][i], nt).value]) else None
  }

  /** A column read in full has one sample per row, taken from entry `i` of that row. */
  lemma {:induction false} ColumnOfValues(rows: seq<seq<string>>, i: nat, q: QuantityValue, nt: NumberText, j: nat)
    requires ColumnOf(rows, i, q, nt).Some? && j < |rows|
    ensures |ColumnOf(rows, i, q, nt).value| == |rows|
    ensures i < |rows[j]| && Sample(q, rows[j][i], nt) == Some(ColumnOf(rows, i, q, nt).value[j])
    decreases |rows|
  {
    var n := |rows| - 1;
    if j < n {
      ColumnOfValues(rows[..n], i, q, nt, j);
    } else if n > 0 {
      ColumnOfValues(rows[..n], i, q, nt, 0);
    }
  }

  /** A column that cannot be read has a row that is too short or holds no number at entry `i`. */
  lemma {:induction false} ColumnOfFails(rows: seq<seq<string>>, i: nat, q: QuantityValue, nt: NumberText)
    requires ColumnOf(rows, i, q, nt).None?
    ensures exists j :: 0 <= j < |rows| && (i >= |rows[j]| || nt.parse(rows[j][i]).None?)
    decreases |rows|
  {
    var n := |rows| - 1;
    if ColumnOf(rows[..n], i, q, nt).None? {
      ColumnOfFails(rows[..n], i, q, nt);
      var j :| 0 <= j < n && (i >= |rows[..n][j]| || nt.parse(rows[..n][j][i]).None?);
      assert rows[..n][j] == rows[j];
    }
  }

  /** The samples of a quantity in a dataset, read from the first column of its name. */
  function Column(d: Dataset, q: QuantityValue, nt: NumberText): Option<seq<real>> {
    match Find(d.quants, q.name)
    case None => None
    case Some(i) => ColumnOf(d.data, i, q, nt)
  }

  /** The loop over the rows: entry `i` of each, scaled, until a row cannot be read. */
  method ReadColumn(rows: seq<seq<string>>, i: nat, q: QuantityValue, nt: NumberText) returns (col: Option<seq<real>>)
    ensures col == ColumnOf(rows, i, q, nt)
  {
    var data: seq<real> := [];
    var j := 0;
    while j < |rows|
      invariant 0 <= j <= |rows|
      invariant ColumnOf(rows[..j], i, q, nt) == Some(data)
    {
      ColumnOfStep(rows, i, q, nt, j, data);
      if i >= |rows[j]| || nt.parse(rows[j][i]).None? {
        ColumnOfPrefixFails(rows, i, q, nt, j + 1);
        return None;
      }
      data := data + [Scaled(q, nt.parse(rows[j][i]).value)];
      j := j + 1;
    }
    assert rows[..j] == rows;
    return Some(data);
  }

  /** One more row read. */
  lemma ColumnOfStep(rows: seq<seq<string>>, i: nat, q: QuantityValue, nt: NumberText, j: nat, data: seq<real>)
    requires j < |rows| && ColumnOf(rows[..j], i, q, nt) == Some(data)
    ensures i < |rows[j]| && nt.parse(rows[j][i]).Some? ==>
      ColumnOf(rows[..j + 1], i, q, nt) == Some(data + [Scaled(q, nt.parse(rows[j][i]).value)])
    ensures i >= |rows[j]| || nt.parse(rows[j][i]).None? ==> ColumnOf(rows[..j + 1], i, q, nt).None?
  {
    var rs := rows[..j + 1];
    assert rs[..j] == rows[..j] && rs[j] == rows[j];
    assert ColumnOf(rs, i, q, nt) == match ColumnOf(rs[..j], i, q, nt)
      case None => None
      case Some(c) => if i < |rs[j]| && Sample(q, rs[j][i], nt).Some? then Some(c + [Sample(q, rs[j][i], nt).value]) else None;
  }

  /** The loops that find the quantity's column and scale every row's entry there. */
  method ExtractColumn(d: Dataset, q: QuantityValue, nt: NumberText) returns (col: Option<seq<real>>)
    ensures col == Column(d, q, nt)
  {
    var i := 0;
    while i < |d.quants|
      invariant 0 <= i <= |d.quants|
      invariant forall k :: 0 <= k < i ==> d.quants[k] != q.name
    {
      if d.quants[i] == q.name {
        FindFirst(d.quants, i);
        col := ReadColumn(d.data, i, q, nt);
        return;
      }
      i := i + 1;
    }
    return None;
  }

  /** When some rows already fail for a column, all rows do. */
  lemma {:induction false} ColumnOfPrefixFails(rows: seq<seq<string>>, i: nat, q: QuantityValue, nt: NumberText, n: nat)
    requires n <= |rows| && ColumnOf(rows[..n], i, q, nt).None?
    ensures ColumnOf(rows, i, q, nt).None?
    decreases |rows| - n
  {
    if n < |rows| {
      assert rows[..n + 1][..n] == rows[..n];
      ColumnOfPrefixFails(rows, i, q, nt, n + 1);
    } else {
      assert rows[..n] == rows;
    }
  }

  // ---------------------------------------------------------------------------
  // The series of one dataset

  /** The header of the `k`-th series of a dataset (counting from 1). */
  function Label(name: string, single: bool, k: nat): string {
    if single then name else name + "-" + NatToString(k)
  }

  /** The series of one pair, or `None` when one of its columns cannot be read. */
  function PairSeries(d: Dataset, x: QuantityValue, y: QuantityValue, header: string, nt: NumberText): Option<Series> {
    match (Column(d, x, nt), Column(d, y, nt))
    case (Some(xd), Some(yd)) => Some(Series(header, x, y, xd, yd))
    case _ => None
  }

  /** One pass of the nested loops: the series of a pair under header number `k`. */
  function Pass(d: Dataset, single: bool, nt: NumberText): (QuantityValue, QuantityValue, nat) -> Option<Series> {
    (x: QuantityValue, y: QuantityValue, k: nat) => PairSeries(d, x, y, Label(d.name, single, k), nt)
  }

  /** The series a dataset contributes, given the values of the catalog. */
  function DatasetSeries(d: Dataset, vs: seq<QuantityValue>, nt: NumberText): Option<seq<Series>> {
    var xs := AxisQuants(d.quants, vs, "xdata");
    var ys := AxisQuants(d.quants, vs, "ydata");
    if |xs| == 0 || |ys| == 0 then Some([])
    else AllSome(Attempts(Pass(d, |xs| == 1 && |ys| == 1, nt), Grid(xs, ys)))
  }

  /** A dataset without x or without y quantities yields no series; otherwise one per (x, y) pair. */
  lemma SeriesCount(d: Dataset, vs: seq<QuantityValue>, nt: NumberText)
    ensures var xs := AxisQuants(d.quants, vs, "xdata"); var ys := AxisQuants(d.quants, vs, "ydata");
      && (|xs| == 0 || |ys| == 0 ==> DatasetSeries(d, vs, nt) == Some([]))
      && (DatasetSeries(d, vs, nt).Some? ==> |DatasetSeries(d, vs, nt).value| == |xs| * |ys|)
  {
    GridSize(AxisQuants(d.quants, vs, "xdata"), AxisQuants(d.quants, vs, "ydata"));
  }

  /** Series `k` of a dataset is the series of grid pair `k` under header number `k + 1`. */
  lemma SeriesAt(d: Dataset, vs: seq<QuantityValue>, nt: NumberText, k: nat)
    requires DatasetSeries(d, vs, nt).Some? && k < |DatasetSeries(d, vs, nt).value|
    ensures var xs := AxisQuants(d.quants, vs, "xdata"); var ys := AxisQuants(d.quants, vs, "ydata");
      && k < |Grid(xs, ys)|
      && PairSeries(d, Grid(xs, ys)[k].0, Grid(xs, ys)[k].1, Label(d.name, |xs| == 1 && |ys| == 1, k + 1), nt)
         == Some(DatasetSeries(d, vs, nt).value[k])
  {
    var xs := AxisQuants(d.quants, vs, "xdata");
    var ys := AxisQuants(d.quants, vs, "ydata");
    AllSomeValues(Attempts(Pass(d, |xs| == 1 && |ys| == 1, nt), Grid(xs, ys)), k);
  }

  /** Series `a * |ys| + b` pairs x quantity `a` with y quantity `b`, and carries the header of its position. */
  lemma SeriesOrder(d: Dataset, vs: seq<QuantityValue>, nt: NumberText, a: nat, b: nat)
    requires DatasetSeries(d, vs, nt).Some?
    requires a < |AxisQuants(d.quants, vs, "xdata")| && b < |AxisQuants(d.quants, vs, "ydata")|
    ensures var xs := AxisQuants(d.quants, vs, "xdata"); var ys := AxisQuants(d.quants, vs, "ydata");
      var k := a * |ys| + b;
      && k < |DatasetSeries(d, vs, nt).value|
      && var s := DatasetSeries(d, vs, nt).value[k];
      && s.xquant == xs[a] && s.yquant == ys[b]
      && s.header == if |xs| == 1 && |ys| == 1 then d.name else d.name + "-" + NatToString(k + 1)
  {
    var xs := AxisQuants(d.quants, vs, "xdata");
    var ys := AxisQuants(d.quants, vs, "ydata");
    GridAt(xs, ys, a, b);
    SeriesAt(d, vs, nt, a * |ys| + b);
  }

  /** Each series has one sample per row of its dataset, on either axis, `factor * (raw + offset)` of its quantity. */
  lemma SeriesSamples(d: Dataset, vs: seq<QuantityValue>, nt: NumberText, k: nat, j: nat)
    requires DatasetSeries(d, vs, nt).Some? && k < |DatasetSeries(d, vs, nt).value|
    requires j < |d.data|
    ensures var s := DatasetSeries(d, vs, nt).value[k];
      && |s.xdata| == |d.data| && |s.ydata| == |d.data|
      && Find(d.quants, s.xquant.name).Some? && Find(d.quants, s.yquant.name).Some?
      && var cx := Find(d.quants, s.xquant.name).value; var cy := Find(d.quants, s.yquant.name).value;
      && cx < |d.data[j]| && Sample(s.xquant, d.data[j][cx], nt) == Some(s.xdata[j])
      && cy < |d.data[j]| && Sample(s.yquant, d.data[j][cy], nt) == Some(s.ydata[j])
  {
    SeriesAt(d, vs, nt, k);
    var s := DatasetSeries(d, vs, nt).value[k];
    ColumnOfValues(d.data, Find(d.quants, s.xquant.name).value, s.xquant, nt, j);
    ColumnOfValues(d.data, Find(d.quants, s.yquant.name).value, s.yquant, nt, j);
  }

  /** A dataset yields no series when some pair of its x and y quantities has a column that cannot be read. */
  lemma SeriesGap(d: Dataset, vs: seq<QuantityValue>, nt: NumberText, k: nat)
    requires var g := Grid(AxisQuants(d.quants, vs, "xdata"), AxisQuants(d.quants, vs, "ydata"));
      k < |g| && (Column(d, g[k].0, nt).None? || Column(d, g[k].1, nt).None?)
    ensures DatasetSeries(d, vs, nt).None?
  {
    var xs := AxisQuants(d.quants, vs, "xdata");
    var ys := AxisQuants(d.quants, vs, "ydata");
    GridSize(xs, ys);
    AllSomeGap(Attempts(Pass(d, |xs| == 1 && |ys| == 1, nt), Grid(xs, ys)), k);
  }

  /** ... and only then: a dataset without series has such a pair, at position `k` of its grid. */
  lemma SeriesMissing(d: Dataset, vs: seq<QuantityValue>, nt: NumberText) returns (k: nat)
    requires DatasetSeries(d, vs, nt).None?
    ensures var g := Grid(AxisQuants(d.quants, vs, "xdata"), AxisQuants(d.quants, vs, "ydata"));
      k < |g| && (Column(d, g[k].0, nt).None? || Column(d, g[k].1, nt).None?)
  {
    var xs := AxisQuants(d.quants, vs, "xdata");
    var ys := AxisQuants(d.quants, vs, "ydata");
    var g := Grid(xs, ys);
    var f := Pass(d, |xs| == 1 && |ys| == 1, nt);
    AttemptsMissing(f, g);
    k :| 0 <= k < |g| && f(g[k].0, g[k].1, k + 1).None?;
    PassFails(d, |xs| == 1 && |ys| == 1, nt, g[k].0, g[k].1, k + 1);
  }

  /** A pass yields nothing only when one of its two columns cannot be read. */
  lemma PassFails(d: Dataset, single: bool, nt: NumberText, x: QuantityValue, y: QuantityValue, k: nat)
    requires Pass(d, single, nt)(x, y, k).None?
    ensures Column(d, x, nt).None? || Column(d, y, nt).None?
  {
  }

  /** One pass of the inner loop: the x column, the y column, and the series made of them. */
  method DerivePair(d: Dataset, xquant: QuantityValue, yquant: QuantityValue, header: string, nt: NumberText)
    returns (s: Option<Series>)
    ensures s == PairSeries(d, xquant, yquant, header, nt)
  {
    var xdata := ExtractColumn(d, xquant, nt);
    if xdata.None? {
      return None;
    }
    var ydata := ExtractColumn(d, yquant, nt);
    if ydata.None? {
      return None;
    }
    return Some(Series(header, xquant, yquant, xdata.value, ydata.value));
  }

  /** The body of the inner loop: the series of a pair under header number `datacount`. */
  method DerivePass(d: Dataset, xquant: QuantityValue, yquant: QuantityValue, singleset: bool, datacount: nat,
                    nt: NumberText)
    returns (s: Option<Series>)
    ensures s == Pass(d, singleset, nt)(xquant, yquant, datacount)
  {
    var header := if singleset then d.name else d.name + "-" + NatToString(datacount);
    s := DerivePair(d, xquant, yquant, header, nt);
  }

  /**
   * The inner loop over the y quantities for one x quantity, with the series
   * numbered on from `datacount`.
   */
  method DeriveRow(d: Dataset, xquant: QuantityValue, yquants: seq<QuantityValue>, singleset: bool, datacount: nat,
                   nt: NumberText)
    returns (r: Option<seq<Series>>)
    ensures r == AllSome(RowAttempts(Pass(d, singleset, nt), xquant, yquants, datacount))
  {
    ghost var f := Pass(d, singleset, nt);
    var xydata: seq<Series> := [];
    var b := 0;
    while b < |yquants|
      invariant 0 <= b <= |yquants|
      invariant AllSome(RowAttempts(f, xquant, yquants[..b], datacount)) == Some(xydata)
    {
      var series := DerivePass(d, xquant, yquants[b], singleset, datacount + b, nt);
      RowStep(f, xquant, yquants, datacount, b, xydata, series);
      if series.None? {
        return None;
      }
      xydata := xydata + [series.value];
      b := b + 1;
    }
    assert yquants[..b] == yquants;
    return Some(xydata);
  }

  /** The nested loops of the deriver for one dataset. */
  method DeriveDataset(d: Dataset, vs: seq<QuantityValue>, nt: NumberText) returns (r: Option<seq<Series>>)
    ensures r == DatasetSeries(d, vs, nt)
  {
    var xquants, yquants := SplitAxes(d.quants, vs);
    var singleset := |xquants| == 1 && |yquants| == 1;
    if !(|xquants| > 0 && |yquants| > 0) {
      return Some([]);
    }
    r := DeriveGrid(d, xquants, yquants, singleset, nt);
    GridAttemptsFlat(Pass(d, singleset, nt), xquants, yquants);
  }

  /** The loop over the x quantities of a dataset. */
  method DeriveGrid(d: Dataset, xquants: seq<QuantityValue>, yquants: seq<QuantityValue>, singleset: bool, nt: NumberText)
    returns (r: Option<seq<Series>>)
    ensures r == AllSome(GridAttempts(Pass(d, singleset, nt), xquants, yquants))
  {
    ghost var f := Pass(d, singleset, nt);
    var xydata: seq<Series> := [];
    var datacount := 1;
    var a := 0;
    while a < |xquants|
      invariant 0 <= a <= |xquants|
      invariant datacount == |GridAttempts(f, xquants[..a], yquants)| + 1
      invariant AllSome(GridAttempts(f, xquants[..a], yquants)) == Some(xydata)
    {
      var series := DeriveRow(d, xquants[a], yquants, singleset, datacount, nt);
      GridStep(f, xquants, yquants, a, xydata, series);
      if series.None? {
        return None;
      }
      xydata := xydata + series.value;
      datacount := datacount + |yquants|;
      a := a + 1;
    }
    assert xquants[..a] == xquants;
    return Some(xydata);
  }

  // ---------------------------------------------------------------------------
  // All datasets

  /** The series of one dataset, as a function of the dataset. */
  function Derived(vs: seq<QuantityValue>, nt: NumberText): Dataset -> Option<seq<Series>> {
    (d: Dataset) => DatasetSeries(d, vs, nt)
  }

  /** The series of all datasets in dataset order; `None` when one dataset ends the program. */
  function AllSeries(datasets: seq<Dataset>, vs: seq<QuantityValue>, nt: NumberText): Option<seq<Series>> {
    Concat(Derived(vs, nt), datasets)
  }

  /** Every series belongs to a dataset `i`: its header starts with the dataset name and both quantities are its columns. */
  lemma AllSeriesFromDatasets(datasets: seq<Dataset>, vs: seq<QuantityValue>, nt: NumberText, k: nat) returns (i: nat)
    requires AllSeries(datasets, vs, nt).Some? && k < |AllSeries(datasets, vs, nt).value|
    ensures i < |datasets| && SeriesOf(datasets[i], vs, nt, AllSeries(datasets, vs, nt).value[k])
  {
    var j;
    i, j := ConcatFrom(Derived(vs, nt), datasets, k);
    SeriesOfDataset(datasets[i], vs, nt, j);
  }

  /**
   * Every series derived from the datasets the report loop keeps has at least one
   * sample, and as many y samples as x samples: each kept dataset has rows.
   */
  lemma KeptSeriesLengths(files: seq<string>, contents: seq<seq<string>>, vs: seq<QuantityValue>, nt: NumberText, k: nat)
    requires |files| == |contents|
    requires AllSeries(KeptDatasets(files, contents), vs, nt).Some?
    requires k < |AllSeries(KeptDatasets(files, contents), vs, nt).value|
    ensures var s := AllSeries(KeptDatasets(files, contents), vs, nt).value[k];
      0 < |s.xdata| == |s.ydata|
  {
    var datasets := KeptDatasets(files, contents);
    var i, j := ConcatFrom(Derived(vs, nt), datasets, k);
    SeriesSamples(datasets[i], vs, nt, j, 0);
  }

  /** A series of the given dataset: named after it, pairing an x and a y quantity of its columns. */
  ghost predicate SeriesOf(d: Dataset, vs: seq<QuantityValue>, nt: NumberText, s: Series) {
    && StartsWith(s.header, d.name)
    && s.xquant.kind == Some("xdata") && s.xquant.name in d.quants && s.xquant in vs
    && s.yquant.kind == Some("ydata") && s.yquant.name in d.quants && s.yquant in vs
  }

  lemma SeriesOfDataset(d: Dataset, vs: seq<QuantityValue>, nt: NumberText, k: nat)
    requires DatasetSeries(d, vs, nt).Some? && k < |DatasetSeries(d, vs, nt).value|
    ensures SeriesOf(d, vs, nt, DatasetSeries(d, vs, nt).value[k])
  {
    var xs := AxisQuants(d.quants, vs, "xdata");
    var ys := AxisQuants(d.quants, vs, "ydata");
    var s := DatasetSeries(d, vs, nt).value[k];
    var p := Grid(xs, ys)[k];
    SeriesAt(d, vs, nt, k);
    GridMember(xs, ys, k);
    var a, b :| 0 <= a < |xs| && 0 <= b < |ys| && p == (xs[a], ys[b]);
    AxisQuantsSound(d.quants, vs, "xdata", a);
    AxisQuantsSound(d.quants, vs, "ydata", b);
    assert StartsWith(s.header, d.name) by { LabelStarts(d.name, |xs| == 1 && |ys| == 1, k + 1); }
  }

  lemma LabelStarts(name: string, single: bool, k: nat)
    ensures StartsWith(Label(name, single, k), name)
  {
    assert (name + "-" + NatToString(k))[..|name|] == name;
  }

  /** The deriver's loop over the datasets. */
  method DeriveAll(datasets: seq<Dataset>, vs: seq<QuantityValue>, nt: NumberText) returns (r: Option<seq<Series>>)
    ensures r == AllSeries(datasets, vs, nt)
  {
    var xydata: seq<Series> := [];
    var i := 0;
    while i < |datasets|
      invariant 0 <= i <= |datasets|
      invariant AllSeries(datasets[..i], vs, nt) == Some(xydata)
    {
      var s := DeriveDataset(datasets[i], vs, nt);
      ConcatStep(Derived(vs, nt), datasets, i, xydata, s);
      if s.None? {
        return None;
      }
      xydata := xydata + s.value;
      i := i + 1;
    }
    assert datasets[..i] == datasets;
    return Some(xydata);
  }
}
