/**
 * Writing a series to a text file named after its header, in one of the two
 * layouts the tool offers:
 *   - Maple: two lines "name: description", then one line `[[x1,y1],...,[xn,yn]]`;
 *   - delimited: a line of names and a line of descriptions, then one line
 *     per sample, each with the x and y text separated by a one-character delimiter.
 * Numbers are written with `str(x)` (`NumberText.format`). The file itself is
 * given as its name and its lines.
 */
module Export {
  import opened Common
  import opened Text
  import opened Numbers
  import opened Quantities
  import opened Report
  import opened Derive

  /** The layout chosen at the format prompt ("m" or "o" with its delimiter). */
  datatype Layout = Maple | Delimited(delim: char)

  /** A written file: its name and the lines `writelines` receives. */
  datatype TextFile = TextFile(name: string, lines: seq<string>)

  // ---------------------------------------------------------------------------
  // Maple layout

  /** `f"[{x},{y}]"` */
  function PairText(x: real, y: real, nt: NumberText): string {
    "[" + nt.format(x) + "," + nt.format(y) + "]"
  }

  /** The first `m` pairs, each followed by a comma. */
  function MaplePrefix(xs: seq<real>, ys: seq<real>, m: nat, nt: NumberText): string
    requires m <= |xs| && m <= |ys|
    decreases m
  {
    if m == 0 then "" else MaplePrefix(xs, ys, m - 1, nt) + PairText(xs[m - 1], ys[m - 1], nt) + ","
  }

  /** The Maple data line: every pair but the last with a comma, then the last x with the last y, closed. */
  function MapleLine(xs: seq<real>, ys: seq<real>, nt: NumberText): string
    requires 0 < |xs| <= |ys|
  {
    "[" + MaplePrefix(xs, ys, |xs| - 1, nt) + PairText(xs[|xs| - 1], ys[|ys| - 1], nt) + "]\n"
  }

  /** The data line loop of the Maple layout. */
  method MapleDataLine(xs: seq<real>, ys: seq<real>, nt: NumberText) returns (dataline: string)
    requires 0 < |xs| <= |ys|
    ensures dataline == MapleLine(xs, ys, nt)
  {
    dataline := "[";
    var i := 0;
    while i < |xs| - 1
      invariant 0 <= i <= |xs| - 1
      invariant dataline == "[" + MaplePrefix(xs, ys, i, nt)
    {
      dataline := dataline + PairText(xs[i], ys[i], nt) + ",";
      i := i + 1;
    }
    dataline := dataline + PairText(xs[|xs| - 1], ys[|ys| - 1], nt) + "]\n";
  }

  /** The pieces between the commas of the first `m` pairs: "[x" and "y]" in turn. */
  function PairFields(xs: seq<real>, ys: seq<real>, m: nat, nt: NumberText): (fs: seq<string>)
    requires m <= |xs| && m <= |ys|
    ensures |fs| == 2 * m
    decreases m
  {
    if m == 0 then []
    else PairFields(xs, ys, m - 1, nt) + ["[" + nt.format(xs[m - 1]), nt.format(ys[m - 1]) + "]"]
  }

  /** The pieces of pair `k`. */
  lemma {:induction false} PairFieldsAt(xs: seq<real>, ys: seq<real>, m: nat, nt: NumberText, k: nat)
    requires m <= |xs| && m <= |ys| && k < m
    ensures PairFields(xs, ys, m, nt)[2 * k] == "[" + nt.format(xs[k])
    ensures PairFields(xs, ys, m, nt)[2 * k + 1] == nt.format(ys[k]) + "]"
    decreases m
  {
    if k < m - 1 {
      PairFieldsAt(xs, ys, m - 1, nt, k);
    }
  }

  /** The pairs of a Maple line are the pair fields joined by commas. */
  lemma {:induction false} MaplePairsJoined(xs: seq<real>, ys: seq<real>, m: nat, nt: NumberText)
    requires 1 <= m <= |xs| && m <= |ys|
    ensures MaplePrefix(xs, ys, m - 1, nt) + PairText(xs[m - 1], ys[m - 1], nt) == Join(PairFields(xs, ys, m, nt), ',')
    decreases m
  {
    var a, b := "[" + nt.format(xs[m - 1]), nt.format(ys[m - 1]) + "]";
    var gs := PairFields(xs, ys, m - 1, nt);
    assert PairText(xs[m - 1], ys[m - 1], nt) == a + [','] + b;
    if m == 1 {
      assert PairFields(xs, ys, m, nt) == [a, b];
      assert Join([a, b], ',') == a + [','] + b;
    } else {
      MaplePairsJoined(xs, ys, m - 1, nt);
      assert PairFields(xs, ys, m, nt) == gs + [a] + [b];
      JoinSnoc(gs, a, ',');
      JoinSnoc(gs + [a], b, ',');
    }
  }

  /** `str(x)` never holds the character `c` when `c` is not a numeral character. */
  lemma FormatAvoids(r: real, c: char, nt: NumberText)
    requires Numeral(nt) && !IsNumeralChar(c)
    ensures c !in nt.format(r)
  {
    var t := nt.format(r);
    forall k | 0 <= k < |t| ensures t[k] != c {
      assert IsNumeralChar(nt.format(r)[k]);
    }
  }

  /** No pair field holds a comma, since numerals do not. */
  lemma {:induction false} PairFieldsCommaFree(xs: seq<real>, ys: seq<real>, m: nat, nt: NumberText)
    requires Numeral(nt) && m <= |xs| && m <= |ys|
    ensures forall i :: 0 <= i < 2 * m ==> ',' !in PairFields(xs, ys, m, nt)[i]
    decreases m
  {
    if m > 0 {
      PairFieldsCommaFree(xs, ys, m - 1, nt);
      FormatAvoids(xs[m - 1], ',', nt);
      FormatAvoids(ys[m - 1], ',', nt);
      var a, b := "[" + nt.format(xs[m - 1]), nt.format(ys[m - 1]) + "]";
      assert ',' !in a && ',' !in b;
    }
  }

  /** A "[x" piece and a "y]" piece that hold the numbers `x` and `y`. */
  predicate ReadsAsPair(f0: string, f1: string, x: real, y: real, nt: NumberText) {
    && |f0| > 0 && f0[0] == '[' && nt.parse(f0[1..]) == Some(x)
    && |f1| > 0 && f1[|f1| - 1] == ']' && nt.parse(f1[..|f1| - 1]) == Some(y)
  }

  /** The pieces of pair `k` hold sample `k`, when both of its numbers are floats. */
  lemma PairFieldsReadBack(xs: seq<real>, ys: seq<real>, m: nat, nt: NumberText, k: nat)
    requires RoundTrips(nt) && m <= |xs| && m <= |ys| && k < m
    requires nt.isFloat(xs[k]) && nt.isFloat(ys[k])
    ensures ReadsAsPair(PairFields(xs, ys, m, nt)[2 * k], PairFields(xs, ys, m, nt)[2 * k + 1], xs[k], ys[k], nt)
  {
    PairFieldsAt(xs, ys, m, nt, k);
    var f0, f1 := PairFields(xs, ys, m, nt)[2 * k], PairFields(xs, ys, m, nt)[2 * k + 1];
    assert f0[1..] == nt.format(xs[k]);
    assert f1[..|f1| - 1] == nt.format(ys[k]);
  }

  /** The text between the outer brackets of a Maple line. */
  function MapleInner(xs: seq<real>, ys: seq<real>, nt: NumberText): string
    requires 0 < |xs| <= |ys|
  {
    var line := MapleLine(xs, ys, nt);
    line[1..|line| - 2]
  }

  /** Between the outer brackets, the comma-separated pieces of a Maple line are "[x" and "y]" for every sample. */
  lemma MapleFields(xs: seq<real>, ys: seq<real>, nt: NumberText)
    requires Numeral(nt) && 0 < |xs| == |ys|
    ensures Split(MapleInner(xs, ys, nt), ',') == PairFields(xs, ys, |xs|, nt)
    ensures |Split(MapleInner(xs, ys, nt), ',')| == 2 * |xs|
  {
    var n := |xs|;
    var line := MapleLine(xs, ys, nt);
    var inner := MaplePrefix(xs, ys, n - 1, nt) + PairText(xs[n - 1], ys[n - 1], nt);
    assert line == "[" + inner + "]\n";
    assert line[1..|line| - 2] == inner;
    MaplePairsJoined(xs, ys, n, nt);
    PairFieldsCommaFree(xs, ys, n, nt);
    SplitJoin(PairFields(xs, ys, n, nt), ',');
  }

  /**
   * Reading a Maple line back: the pieces "[x" and "y]" between the commas hold
   * the samples, when the samples are floats.
   */
  lemma MapleReadBack(xs: seq<real>, ys: seq<real>, nt: NumberText)
    requires Faithful(nt) && 0 < |xs| == |ys|
    requires AllFloats(xs, nt) && AllFloats(ys, nt)
    ensures var fs := Split(MapleInner(xs, ys, nt), ',');
      && |fs| == 2 * |xs|
      && forall k :: 0 <= k < |xs| ==> ReadsAsPair(fs[2 * k], fs[2 * k + 1], xs[k], ys[k], nt)
  {
    var n := |xs|;
    MapleFields(xs, ys, nt);
    forall k | 0 <= k < n
      ensures ReadsAsPair(PairFields(xs, ys, n, nt)[2 * k], PairFields(xs, ys, n, nt)[2 * k + 1], xs[k], ys[k], nt)
    {
      PairFieldsReadBack(xs, ys, n, nt, k);
    }
  }

  // ---------------------------------------------------------------------------
  // Delimited layout

  /** `f"{a}{q_delim}{b}\n"` */
  function FieldsLine(a: string, b: string, delim: char): string {
    a + [delim] + b + "\n"
  }

  /** The sample lines of the delimited layout: one per x value. */
  function SampleLines(xs: seq<real>, ys: seq<real>, delim: char, nt: NumberText): (r: seq<string>)
    requires |xs| <= |ys|
    ensures |r| == |xs|
  {
    seq(|xs|, i requires 0 <= i < |xs| => FieldsLine(nt.format(xs[i]), nt.format(ys[i]), delim))
  }

  /** The sample line loop of the delimited layout. */
  method WriteSamples(xs: seq<real>, ys: seq<real>, delim: char, nt: NumberText) returns (lines: seq<string>)
    requires |xs| <= |ys|
    ensures lines == SampleLines(xs, ys, delim, nt)
  {
    lines := [];
    var i := 0;
    while i < |xs|
      invariant 0 <= i <= |xs|
      invariant lines == SampleLines(xs[..i], ys, delim, nt)
    {
      lines := lines + [FieldsLine(nt.format(xs[i]), nt.format(ys[i]), delim)];
      i := i + 1;
    }
    assert xs[..i] == xs;
  }

  /** A line of two fields, split on its delimiter after dropping the newline, gives the fields back. */
  lemma FieldsLineReadBack(a: string, b: string, delim: char)
    requires delim !in a && delim !in b
    ensures var line := FieldsLine(a, b, delim); Split(line[..|line| - 1], delim) == [a, b]
  {
    var line := FieldsLine(a, b, delim);
    assert line[..|line| - 1] == Join([a, b], delim);
    SplitJoin([a, b], delim);
  }

  /**
   * A delimited sample line, split on its delimiter after dropping the newline,
   * gives the texts of its two samples, when the delimiter is not a character
   * `str(x)` can produce.
   */
  lemma SampleLineFields(xs: seq<real>, ys: seq<real>, delim: char, nt: NumberText, i: nat)
    requires Numeral(nt) && |xs| <= |ys| && i < |xs| && !IsNumeralChar(delim)
    ensures var line := SampleLines(xs, ys, delim, nt)[i];
      Split(line[..|line| - 1], delim) == [nt.format(xs[i]), nt.format(ys[i])]
  {
    FormatAvoids(xs[i], delim, nt);
    FormatAvoids(ys[i], delim, nt);
    FieldsLineReadBack(nt.format(xs[i]), nt.format(ys[i]), delim);
  }

  /** Reading a delimited sample line back: its two texts parse to the samples, when they are floats. */
  lemma SampleLineReadBack(xs: seq<real>, ys: seq<real>, delim: char, nt: NumberText, i: nat)
    requires Faithful(nt) && |xs| <= |ys| && i < |xs| && !IsNumeralChar(delim)
    requires nt.isFloat(xs[i]) && nt.isFloat(ys[i])
    ensures var line := SampleLines(xs, ys, delim, nt)[i];
      var fs := Split(line[..|line| - 1], delim);
      |fs| == 2 && nt.parse(fs[0]) == Some(xs[i]) && nt.parse(fs[1]) == Some(ys[i])
  {
    SampleLineFields(xs, ys, delim, nt, i);
    FormatParses(xs[i], nt);
    FormatParses(ys[i], nt);
  }

  // ---------------------------------------------------------------------------
  // The files

  /** The file of one series (`header + ".txt"`) in the chosen layout. */
  function SeriesFile(s: Series, layout: Layout, nt: NumberText): (f: TextFile)
    requires 0 < |s.xdata| <= |s.ydata|
    ensures f.name == s.header + ".txt"
    ensures match layout
      case Maple => |f.lines| == 3
      case Delimited(_) => |f.lines| == 2 + |s.xdata|
  {
    var name := s.header + ".txt";
    match layout
    case Maple =>
      TextFile(name, [s.xquant.name + ": " + DescrText(s.xquant) + "\n",
                      s.yquant.name + ": " + DescrText(s.yquant) + "\n",
                      MapleLine(s.xdata, s.ydata, nt)])
    case Delimited(d) =>
      TextFile(name, [FieldsLine(s.xquant.name, s.yquant.name, d),
                      FieldsLine(DescrText(s.xquant), DescrText(s.yquant), d)]
                     + SampleLines(s.xdata, s.ydata, d, nt))
  }

  /** The two header lines of the delimited layout read back as the quantity names and descriptions. */
  lemma DelimitedHeaderReadBack(s: Series, d: char, nt: NumberText)
    requires 0 < |s.xdata| <= |s.ydata|
    requires d !in s.xquant.name && d !in s.yquant.name && d !in DescrText(s.xquant) && d !in DescrText(s.yquant)
    ensures var f := SeriesFile(s, Delimited(d), nt);
      && Split(f.lines[0][..|f.lines[0]| - 1], d) == [s.xquant.name, s.yquant.name]
      && Split(f.lines[1][..|f.lines[1]| - 1], d) == [DescrText(s.xquant), DescrText(s.yquant)]
  {
    FieldsLineReadBack(s.xquant.name, s.yquant.name, d);
    FieldsLineReadBack(DescrText(s.xquant), DescrText(s.yquant), d);
  }

  /** Building the lines of one series' file. */
  method WriteSeries(s: Series, layout: Layout, nt: NumberText) returns (f: TextFile)
    requires 0 < |s.xdata| <= |s.ydata|
    ensures f == SeriesFile(s, layout, nt)
  {
    var filename := s.header + ".txt";
    var lines: seq<string> := [];
    match layout {
      case Maple =>
        lines := lines + [s.xquant.name + ": " + DescrText(s.xquant) + "\n"];
        lines := lines + [s.yquant.name + ": " + DescrText(s.yquant) + "\n"];
        var dataline := MapleDataLine(s.xdata, s.ydata, nt);
        lines := lines + [dataline];
      case Delimited(d) =>
        lines := lines + [FieldsLine(s.xquant.name, s.yquant.name, d)];
        lines := lines + [FieldsLine(DescrText(s.xquant), DescrText(s.yquant), d)];
        var samples := WriteSamples(s.xdata, s.ydata, d, nt);
        lines := lines + samples;
    }
    f := TextFile(filename, lines);
  }

  /** Every series has at least one x value and no fewer y values than x values. */
  predicate Writable(xydata: seq<Series>) {
    forall k :: 0 <= k < |xydata| ==> 0 < |xydata[k].xdata| <= |xydata[k].ydata|
  }

  /** The series derived from the kept datasets can all be written. */
  lemma KeptSeriesWritable(files: seq<string>, contents: seq<seq<string>>, vs: seq<QuantityValue>, nt: NumberText)
    requires |files| == |contents|
    requires AllSeries(KeptDatasets(files, contents), vs, nt).Some?
    ensures Writable(AllSeries(KeptDatasets(files, contents), vs, nt).value)
  {
    var xydata := AllSeries(KeptDatasets(files, contents), vs, nt).value;
    forall k | 0 <= k < |xydata| ensures 0 < |xydata[k].xdata| <= |xydata[k].ydata| {
      KeptSeriesLengths(files, contents, vs, nt, k);
    }
  }

  /** The file loop: one file per series, in series order. */
  method WriteAll(xydata: seq<Series>, layout: Layout, nt: NumberText) returns (files: seq<TextFile>)
    requires Writable(xydata)
    ensures |files| == |xydata|
    ensures forall k :: 0 <= k < |xydata| ==> files[k] == SeriesFile(xydata[k], layout, nt)
  {
    files := [];
    var k := 0;
    while k < |xydata|
      invariant 0 <= k <= |xydata|
      invariant |files| == k
      invariant forall j :: 0 <= j < k ==> files[j] == SeriesFile(xydata[j], layout, nt)
    {
      var f := WriteSeries(xydata[k], layout, nt);
      files := files + [f];
      k := k + 1;
    }
  }
}
