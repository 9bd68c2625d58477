/**
 * The report parser: `getquants`, `getdata` and the rule that keeps a file's
 * dataset only when both its column names and its rows are non-empty.
 * A report file is given as its lines, as `readlines()` returns them (a file that
 * cannot be opened gives no lines).
 */
module Report {
  import opened Common
  import opened Text

  /** `Dataset`: a file name without ".out", its column names and its rows of tokens. */
  datatype Dataset = Dataset(name: string, quants: seq<string>, data: seq<seq<string>>)

  /** Index of the first line that starts with "(" (the line of quoted quantity names). */
  function HeaderIndex(lines: seq<string>): (r: Option<nat>)
    ensures r.Some? ==> r.value < |lines| && StartsWith(lines[r.value], "(")
    ensures r.Some? ==> forall k :: 0 <= k < r.value ==> !StartsWith(lines[k], "(")
    ensures r.None? ==> forall k :: 0 <= k < |lines| ==> !StartsWith(lines[k], "(")
  {
    FirstWhere(lines, (l: string) => StartsWith(l, "("))
  }

  /** The column names: the odd-indexed pieces of the header line split on '"', or none without a header. */
  function Columns(lines: seq<string>): seq<string> {
    var header := match HeaderIndex(lines) case Some(i) => lines[i] case None => "";
    OddPieces(Split(header, '"'))
  }

  /** Where the rows begin: after the header line, or after the first line when there is none. */
  function DataStart(lines: seq<string>): (s: nat)
    requires |lines| > 0
    ensures 1 <= s <= |lines|
  {
    match HeaderIndex(lines) case Some(i) => i + 1 case None => 1
  }

  /** The rows: the whitespace tokens of every line after the header line. */
  function Rows(lines: seq<string>): (rows: seq<seq<string>>) {
    if |lines| == 0 then []
    else
      var s := DataStart(lines);
      seq(|lines| - s, k requires 0 <= k < |lines| - s => Tokens(lines[s + k]))
  }

  /** `getquants` */
  method GetQuants(lines: seq<string>) returns (quants: seq<string>)
    ensures quants == Columns(lines)
  {
    if |lines| > 0 {
      var quantline := "";
      var index := 0;
      while index < |lines|
        invariant 0 <= index <= |lines|
        invariant forall k :: 0 <= k < index ==> !StartsWith(lines[k], "(")
        invariant quantline == ""
      {
        if StartsWith(lines[index], "(") {
          quantline := lines[index];
          break;
        }
        index := index + 1;
      }
      quants := OddPieces(Split(quantline, '"'));
    } else {
      quants := [];
    }
  }

  /** `getdata` */
  method GetData(lines: seq<string>) returns (data: seq<seq<string>>)
    ensures data == Rows(lines)
  {
    if |lines| > 0 {
      var quantindex := 0;
      var index := 0;
      while index < |lines|
        invariant 0 <= index <= |lines|
        invariant forall k :: 0 <= k < index ==> !StartsWith(lines[k], "(")
        invariant quantindex == 0
      {
        if StartsWith(lines[index], "(") {
          quantindex := index;
          break;
        }
        index := index + 1;
      }
      assert quantindex + 1 == DataStart(lines);
      var datalines := lines[quantindex + 1..];
      data := [];
      var k := 0;
      while k < |datalines|
        invariant 0 <= k <= |datalines|
        invariant |data| == k
        invariant forall j :: 0 <= j < k ==> data[j] == Tokens(datalines[j])
      {
        TokensStrip(datalines[k]);
        data := data + [Tokens(Strip(datalines[k]))];
        k := k + 1;
      }
    } else {
      data := [];
    }
  }

  // ---------------------------------------------------------------------------
  // The header line as Fluent writes it: ("name1" "name2" ... "nameN")

  /** The pieces of a header line between its quote characters: names with single spaces between them. */
  function Interleave(names: seq<string>): (r: seq<string>)
    requires |names| >= 1
    ensures |r| == 2 * |names| - 1
    ensures forall k :: 0 <= k < |names| ==> r[2 * k] == names[k]
    ensures forall k :: 0 <= k < |names| - 1 ==> r[2 * k + 1] == " "
    ensures forall i :: 0 <= i < |r| ==> r[i] == " " || r[i] in names
  {
    seq(2 * |names| - 1, i requires 0 <= i < 2 * |names| - 1 => if i % 2 == 0 then names[i / 2] else " ")
  }

  /** The pieces of a header line between its quote characters. */
  function HeaderPieces(names: seq<string>): seq<string>
    requires |names| >= 1
  {
    ["("] + Interleave(names) + [")\n"]
  }

  /** A Fluent header line naming the given columns, ending in a newline. */
  function HeaderLine(names: seq<string>): string
    requires |names| >= 1
  {
    Join(HeaderPieces(names), '"')
  }

  /** No piece of a header line holds a quote when no name does. */
  lemma HeaderPiecesUnquoted(names: seq<string>)
    requires |names| >= 1 && forall k :: 0 <= k < |names| ==> '"' !in names[k]
    ensures forall i :: 0 <= i < |HeaderPieces(names)| ==> '"' !in HeaderPieces(names)[i]
  {
    forall i | 0 <= i < |HeaderPieces(names)| ensures '"' !in HeaderPieces(names)[i] {
      HeaderPieceUnquoted(names, i);
    }
  }

  /** One piece of a header line: a parenthesis, a space or a name. */
  lemma HeaderPieceUnquoted(names: seq<string>, i: nat)
    requires |names| >= 1 && forall k :: 0 <= k < |names| ==> '"' !in names[k]
    requires i < |HeaderPieces(names)|
    ensures '"' !in HeaderPieces(names)[i]
  {
    if 0 < i < |HeaderPieces(names)| - 1 {
      assert HeaderPieces(names)[i] == Interleave(names)[i - 1];
    }
  }

  /** The odd-indexed pieces of a header line are its names. */
  lemma HeaderPiecesOdd(names: seq<string>)
    requires |names| >= 1
    ensures OddPieces(HeaderPieces(names)) == names
  {
    var pieces := HeaderPieces(names);
    forall k | 0 <= k < |names| ensures OddPieces(pieces)[k] == names[k] {
      assert pieces[2 * k + 1] == Interleave(names)[2 * k];
    }
  }

  /** The column names are read back from a header line written in Fluent's form. */
  lemma ColumnsOfHeaderLine(lines: seq<string>, names: seq<string>)
    requires |names| >= 1 && forall k :: 0 <= k < |names| ==> '"' !in names[k]
    requires HeaderIndex(lines).Some? && lines[HeaderIndex(lines).value] == HeaderLine(names)
    ensures Columns(lines) == names
  {
    HeaderPiecesUnquoted(names);
    SplitJoin(HeaderPieces(names), '"');
    HeaderPiecesOdd(names);
  }

  /** Without a header line there are no column names, and the rows are every line but the first. */
  lemma NoHeader(lines: seq<string>)
    requires |lines| > 0 && HeaderIndex(lines).None?
    ensures Columns(lines) == []
    ensures |Rows(lines)| == |lines| - 1
    ensures forall k :: 0 <= k < |lines| - 1 ==> Rows(lines)[k] == Tokens(lines[k + 1])
  {
  }

  // ---------------------------------------------------------------------------
  // Keeping datasets

  /** The datasets the source keeps from the given files, in file order. */
  function KeptDatasets(files: seq<string>, contents: seq<seq<string>>): (r: seq<Dataset>)
    requires |files| == |contents|
    ensures |r| <= |files|
    ensures forall k :: 0 <= k < |r| ==> r[k].quants != [] && r[k].data != []
    decreases |files|
  {
    if files == [] then []
    else
      var n := |files| - 1;
      var init := KeptDatasets(files[..n], contents[..n]);
      var q := Columns(contents[n]);
      var d := Rows(contents[n]);
      if |q| > 0 && |d| > 0 then init + [Dataset(RemoveAll(files[n], ".out"), q, d)] else init
  }

  /**
   * The file loop: read each file's lines (`contents`), extract quantities and
   * data, append a dataset when both are non-empty.
   */
  method CollectDatasets(files: seq<string>, contents: seq<seq<string>>) returns (datasets: seq<Dataset>)
    requires |files| == |contents|
    ensures datasets == KeptDatasets(files, contents)
  {
    datasets := [];
    var i := 0;
    while i < |files|
      invariant 0 <= i <= |files|
      invariant datasets == KeptDatasets(files[..i], contents[..i])
    {
      var lines := contents[i];
      var quants := GetQuants(lines);
      var data := GetData(lines);
      assert files[..i + 1][..i] == files[..i] && contents[..i + 1][..i] == contents[..i];
      if |quants| > 0 && |data| > 0 {
        var name := RemoveAll(files[i], ".out");
        datasets := datasets + [Dataset(name, quants, data)];
      }
      i := i + 1;
    }
    assert files[..i] == files && contents[..i] == contents;
  }
}
