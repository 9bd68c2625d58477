/**
 * What the tool does with the discovered quantities before it touches any data:
 * offer the first matching reference record of each quantity, ask for the type,
 * description, offset and factor of every quantity still untyped, write those
 * settings back to the reference file, and refuse to go on without at least one
 * "xdata" and one "ydata" quantity.
 *
 * Console answers are parameters: `accept` for the "use references?" question,
 * an `Answers` record per untyped quantity (the answers the prompts finally
 * accept), and the reference file is the list of its lines as `readlines()`
 * returns them.
 */
module Catalog {
  import opened Common
  import opened Text
  import opened Numbers
  import opened Quantities

  // ---------------------------------------------------------------------------
  // Reconciliation with the reference records

  /** One quantity after the reference question: only the first record of its name is offered. */
  function ReconcileOne(v: QuantityValue, refs: seq<Reference>, accept: bool): (r: QuantityValue)
    ensures r.name == v.name && r.count == v.count
  {
    match FirstRef(refs, v.name)
    case None => v
    case Some(i) =>
      if accept then
        v.(kind := Some(refs[i].kind), descr := Some(refs[i].descr), offset := refs[i].offset, factor := refs[i].factor)
      else v
  }

  /** Accepting copies type, description, offset and factor of the first record named like the quantity. */
  lemma ReconcileCopiesFirst(v: QuantityValue, refs: seq<Reference>, k: nat)
    requires k < |refs| && refs[k].name == v.name
    requires forall m :: 0 <= m < k ==> refs[m].name != v.name
    ensures ReconcileOne(v, refs, true)
         == v.(kind := Some(refs[k].kind), descr := Some(refs[k].descr), offset := refs[k].offset, factor := refs[k].factor)
    ensures ReconcileOne(v, refs, false) == v
  {
    var i := FirstRef(refs, v.name).value;
    assert !(i < k) && !(k < i);
  }

  /** A reconciled quantity has float settings when it had them and every reference has them. */
  lemma ReconcileKeepsFloats(v: QuantityValue, refs: seq<Reference>, accept: bool, nt: NumberText)
    requires nt.isFloat(v.offset) && nt.isFloat(v.factor)
    requires forall m :: 0 <= m < |refs| ==> nt.isFloat(refs[m].offset) && nt.isFloat(refs[m].factor)
    ensures nt.isFloat(ReconcileOne(v, refs, accept).offset) && nt.isFloat(ReconcileOne(v, refs, accept).factor)
  {
  }

  /** Without a record of its name, a quantity is left as it was, whatever the answer. */
  lemma ReconcileWithoutRecord(v: QuantityValue, refs: seq<Reference>, accept: bool)
    requires forall m :: 0 <= m < |refs| ==> refs[m].name != v.name
    ensures ReconcileOne(v, refs, accept) == v
  {
  }

  /** Asking a second time with the same answer changes nothing more. */
  lemma ReconcileIdempotent(v: QuantityValue, refs: seq<Reference>, accept: bool)
    ensures ReconcileOne(ReconcileOne(v, refs, accept), refs, accept) == ReconcileOne(v, refs, accept)
  {
  }

  /** The inner loop over `ref_quantities` for one quantity, breaking at the first match. */
  method ReconcileQuantity(q: Quantity, refs: seq<Reference>, accept: bool)
    modifies q
    ensures q.Value() == ReconcileOne(old(q.Value()), refs, accept)
  {
    var j := 0;
    while j < |refs|
      invariant 0 <= j <= |refs|
      invariant forall m :: 0 <= m < j ==> refs[m].name != q.name
      invariant q.Value() == old(q.Value())
    {
      if q.name == refs[j].name {
        ReconcileCopiesFirst(q.Value(), refs, j);
        if accept {
          q.SetType(refs[j].kind);
          q.SetDescr(refs[j].descr);
          q.SetOffset(refs[j].offset);
          q.SetFactor(refs[j].factor);
        }
        return;
      }
      j := j + 1;
    }
    ReconcileWithoutRecord(q.Value(), refs, accept);
  }

  /**
   * The reconciliation loop over all quantities; `accept[i]` is the answer for
   * quantity `i`, asked only when a record of its name exists.
   */
  method Reconcile(quantities: seq<Quantity>, refs: seq<Reference>, accept: seq<bool>)
    requires Distinct(quantities) && |accept| == |quantities|
    modifies set q | q in quantities
    ensures forall i :: 0 <= i < |quantities| ==>
      quantities[i].Value() == ReconcileOne(old(quantities[i].Value()), refs, accept[i])
  {
    if |refs| > 0 {
      var i := 0;
      while i < |quantities|
        invariant 0 <= i <= |quantities|
        invariant forall j :: 0 <= j < i ==>
          quantities[j].Value() == ReconcileOne(old(quantities[j].Value()), refs, accept[j])
        invariant forall j :: i <= j < |quantities| ==> quantities[j].Value() == old(quantities[j].Value())
      {
        ReconcileQuantity(quantities[i], refs, accept[i]);
        i := i + 1;
      }
    } else {
      forall i | 0 <= i < |quantities| ensures FirstRef(refs, quantities[i].name).None? { }
    }
  }

  // ---------------------------------------------------------------------------
  // Manual classification

  /** What an accepted type answer asks for. */
  datatype Kind = NoPlot | Plot(axis: Axis)

  /** ASCII lower case; `str.lower()` on the answers the type prompt understands. */
  function LowerChar(c: char): char {
    if 'A' <= c <= 'Z' then (c as int + 32) as char else c
  }

  function Lower(s: string): (r: string)
    ensures |r| == |s|
  {
    seq(|s|, i requires 0 <= i < |s| => LowerChar(s[i]))
  }

  /** The type prompt's reading of an answer; `None` for one it rejects and asks again. */
  function ReadKind(answer: string): (k: Option<Kind>)
    ensures k == Some(NoPlot) <==> Lower(answer) == "none" || Lower(answer) == "n"
    ensures k == Some(Plot(X)) <==> Lower(answer) == "xdata" || Lower(answer) == "x"
    ensures k == Some(Plot(Y)) <==> Lower(answer) == "ydata" || Lower(answer) == "y"
  {
    var a := Lower(answer);
    if a == "none" || a == "n" then Some(NoPlot)
    else if a == "xdata" || a == "x" then Some(Plot(X))
    else if a == "ydata" || a == "y" then Some(Plot(Y))
    else None
  }

  /** `c` is the lower-case letter `d`, or `d` in upper case. */
  predicate SameLetter(c: char, d: char) {
    c == d || ('a' <= d <= 'z' && c as int == d as int - 32)
  }

  /** `answer` spells the lower-case word `w` in any mix of ASCII upper and lower case. */
  predicate SpellsIgnoringCase(answer: string, w: string) {
    |answer| == |w| && forall i :: 0 <= i < |w| ==> SameLetter(answer[i], w[i])
  }

  /** For a word of lower-case letters, `answer.lower() == w` exactly when `answer` spells `w` in any case. */
  lemma LowerIsWord(answer: string, w: string)
    requires forall i :: 0 <= i < |w| ==> 'a' <= w[i] <= 'z'
    ensures Lower(answer) == w <==> SpellsIgnoringCase(answer, w)
  {
    if SpellsIgnoringCase(answer, w) {
      assert forall i :: 0 <= i < |w| ==> Lower(answer)[i] == w[i];
    }
    if Lower(answer) == w {
      forall i | 0 <= i < |w| ensures SameLetter(answer[i], w[i]) {
        assert LowerChar(answer[i]) == w[i];
      }
    }
  }

  /**
   * The type prompt accepts "none"/"n", "xdata"/"x" and "ydata"/"y" in any case,
   * each as its own kind, and rejects every other answer.
   */
  lemma ReadKindIgnoresCase(answer: string)
    ensures ReadKind(answer) == Some(NoPlot) <==> SpellsIgnoringCase(answer, "none") || SpellsIgnoringCase(answer, "n")
    ensures ReadKind(answer) == Some(Plot(X)) <==> SpellsIgnoringCase(answer, "xdata") || SpellsIgnoringCase(answer, "x")
    ensures ReadKind(answer) == Some(Plot(Y)) <==> SpellsIgnoringCase(answer, "ydata") || SpellsIgnoringCase(answer, "y")
  {
    LowerIsWord(answer, "none");
    LowerIsWord(answer, "n");
    LowerIsWord(answer, "xdata");
    LowerIsWord(answer, "x");
    LowerIsWord(answer, "ydata");
    LowerIsWord(answer, "y");
  }

  /**
   * The answers that finally settle one untyped quantity: the accepted type answer,
   * the description, the accepted offset answer, the one factor answer the prompt
   * reads, and whether to save the settings to the reference file.
   */
  datatype Answers = Answers(kind: string, descr: string, offset: string, factor: string, save: bool)

  /** The type prompt accepts `kind`, and the offset prompt accepts `offset` (a number, or blank). */
  predicate Accepted(a: Answers, nt: NumberText) {
    ReadKind(a.kind).Some? && (nt.parse(a.offset).Some? || a.offset == "")
  }

  /** The offset loop of `setquantities`: the number typed, or 0.0 for a blank answer. */
  function OffsetOf(answer: string, nt: NumberText): (o: real)
    requires nt.parse(answer).Some? || answer == ""
    ensures nt.parse(answer).Some? ==> o == nt.parse(answer).value
    ensures nt.parse(answer).None? ==> o == 0.0
  {
    match nt.parse(answer) case Some(o) => o case None => 0.0
  }

  /**
   * The factor loop of `setquantities`, which runs once because of its final
   * `break`: the number typed, 1.0 for a blank answer, and the old factor for
   * anything else.
   */
  function FactorAfter(old_factor: real, answer: string, nt: NumberText): (f: real)
    ensures nt.parse(answer).Some? ==> f == nt.parse(answer).value
    ensures nt.parse(answer).None? && answer == "" ==> f == 1.0
    ensures nt.parse(answer).None? && answer != "" ==> f == old_factor
  {
    match nt.parse(answer)
    case Some(f) => f
    case None => if answer == "" then 1.0 else old_factor
  }

  /** The quantity after its type prompt and, for a plotted one, `setquantities`. */
  function Classified(v: QuantityValue, a: Answers, nt: NumberText): QuantityValue
    requires Accepted(a, nt)
  {
    match ReadKind(a.kind).value
    case NoPlot => v.(kind := Some("none"), descr := Some("none"), offset := 0.0, factor := 0.0)
    case Plot(axis) =>
      v.(kind := Some(axis.TypeName()), descr := Some(a.descr),
         offset := OffsetOf(a.offset, nt), factor := FactorAfter(v.factor, a.factor, nt))
  }

  /**
   * A quantity plotted on an axis gets that axis's type name, the typed
   * description, the typed offset (0.0 for a blank answer) and the typed factor
   * (1.0 for a blank answer, the old factor for any other answer that is not a number).
   */
  lemma ClassifiedSettings(v: QuantityValue, a: Answers, nt: NumberText)
    requires RoundTrips(nt)
    requires Accepted(a, nt) && ReadKind(a.kind).value.Plot?
    ensures var r := Classified(v, a, nt);
      && r.name == v.name && r.count == v.count
      && r.kind == Some(ReadKind(a.kind).value.axis.TypeName()) && r.descr == Some(a.descr)
      && (a.offset == "" ==> r.offset == 0.0)
      && (a.offset != "" ==> r.offset == nt.parse(a.offset).value)
      && (a.factor == "" ==> r.factor == 1.0)
      && (nt.parse(a.factor).Some? ==> r.factor == nt.parse(a.factor).value)
      && (nt.parse(a.factor).None? && a.factor != "" ==> r.factor == v.factor)
  {
  }

  /** Classification keeps the offset and factor floats: each is typed, a default, or unchanged. */
  lemma ClassifiedFloats(v: QuantityValue, a: Answers, nt: NumberText)
    requires RoundTrips(nt) && Accepted(a, nt) && nt.isFloat(v.factor)
    ensures nt.isFloat(Classified(v, a, nt).offset) && nt.isFloat(Classified(v, a, nt).factor)
  {
  }

  /** Only untyped quantities are asked about. */
  function ClassifyOne(v: QuantityValue, a: Answers, nt: NumberText): (r: QuantityValue)
    requires v.kind.None? ==> Accepted(a, nt)
    ensures r.name == v.name && r.count == v.count
    ensures r.kind.Some?
    ensures v.kind.None? ==> r.descr.Some?
    ensures v.kind.Some? ==> r == v
  {
    if v.kind.Some? then v else Classified(v, a, nt)
  }

  /** A classified quantity is typed "none", "xdata" or "ydata", and one typed "none" is scaled to zero. */
  lemma ClassifiedTypes(v: QuantityValue, a: Answers, nt: NumberText)
    requires Accepted(a, nt)
    ensures var r := Classified(v, a, nt);
      && r.name == v.name && r.count == v.count && r.descr.Some?
      && (r.kind == Some("none") || r.kind == Some("xdata") || r.kind == Some("ydata"))
      && (r.kind == Some("none") <==> Lower(a.kind) == "none" || Lower(a.kind) == "n")
      && (r.kind == Some("none") ==> r.descr == Some("none") && r.offset == 0.0 && r.factor == 0.0)
  {
  }

  /** A rejected factor answer is not asked again: the factor stays what it was. */
  lemma RejectedFactorKept(v: QuantityValue, a: Answers, nt: NumberText)
    requires Accepted(a, nt) && ReadKind(a.kind).value.Plot?
    requires nt.parse(a.factor).None? && a.factor != ""
    ensures Classified(v, a, nt).factor == v.factor
  {
  }

  /** `setquantities(quant, type)` with its prompts answered. */
  method SetQuantities(q: Quantity, axis: Axis, a: Answers, nt: NumberText)
    requires Accepted(a, nt) && ReadKind(a.kind) == Some(Plot(axis))
    modifies q
    ensures q.Value() == Classified(old(q.Value()), a, nt)
  {
    q.SetType(axis.TypeName());
    q.SetDescr(a.descr);
    match nt.parse(a.offset) {
      case Some(o) => q.SetOffset(o);
      case None => q.SetOffset(0.0);
    }
    match nt.parse(a.factor) {
      case Some(f) => q.SetFactor(f);
      case None =>
        if a.factor == "" {
          q.SetFactor(1.0);
        }
    }
  }

  /** The type prompt of one untyped quantity and the setters it calls. */
  method ClassifyQuantity(q: Quantity, a: Answers, nt: NumberText)
    requires Accepted(a, nt)
    modifies q
    ensures q.Value() == Classified(old(q.Value()), a, nt)
  {
    var t := Lower(a.kind);
    if t == "none" || t == "n" {
      q.SetType("none");
      q.SetDescr("none");
      q.SetOffset(0.0);
      q.SetFactor(0.0);
    } else if t == "xdata" || t == "x" {
      SetQuantities(q, X, a, nt);
    } else {
      SetQuantities(q, Y, a, nt);
    }
  }

  // ---------------------------------------------------------------------------
  // The reference file as a list of lines

  predicate EndsWithNewline(s: string) {
    s != [] && s[|s| - 1] == '\n'
  }

  /** One line of a text file: non-empty, with a newline at most at its end. */
  predicate IsLine(s: string) {
    s != [] && forall j :: 0 <= j < |s| - 1 ==> s[j] != '\n'
  }

  /** A file in the form `readlines()` gives: every line but the last ends with a newline. */
  ghost predicate IsLines(lines: seq<string>) {
    forall k :: 0 <= k < |lines| ==> IsLine(lines[k]) && (k < |lines| - 1 ==> EndsWithNewline(lines[k]))
  }

  /**
   * Writing one line in append mode (or into a new file): it continues the last
   * line when that has no newline.
   */
  function AppendText(lines: seq<string>, text: string): (r: seq<string>)
    ensures |lines| <= |r| <= |lines| + 1
    ensures forall k :: 0 <= k < |lines| - 1 ==> r[k] == lines[k]
  {
    if lines == [] || EndsWithNewline(lines[|lines| - 1]) then lines + [text]
    else lines[..|lines| - 1] + [lines[|lines| - 1] + text]
  }

  /** Appending a whole line keeps the file in line form. */
  lemma AppendKeepsLines(lines: seq<string>, text: string)
    requires IsLines(lines) && IsLine(text) && EndsWithNewline(text)
    ensures IsLines(AppendText(lines, text))
  {
    if lines != [] && !EndsWithNewline(lines[|lines| - 1]) {
      var last := lines[|lines| - 1];
      var merged := last + text;
      forall j | 0 <= j < |merged| - 1 ensures merged[j] != '\n' {
        if j >= |last| { assert merged[j] == text[j - |last|]; }
      }
    }
  }

  /** A line appended to a file that ends with a newline is loaded back after the records already there. */
  lemma AppendedRecordLoads(lines: seq<string>, v: QuantityValue, nt: NumberText)
    requires Faithful(nt) && LoadedRefs(lines, nt).Some?
    requires lines == [] || EndsWithNewline(lines[|lines| - 1])
    requires v.kind.Some? && v.descr.Some?
    requires RefDelimiter !in v.name && RefDelimiter !in v.kind.value && RefDelimiter !in v.descr.value
    requires v.name != [] ==> !IsSpace(v.name[0])
    requires nt.isFloat(v.offset) && nt.isFloat(v.factor)
    ensures LoadedRefs(AppendText(lines, RefLine(v, nt) + "\n"), nt)
         == Some(LoadedRefs(lines, nt).value + [Reference(v.name, v.kind.value, v.descr.value, v.offset, v.factor)])
  {
    AppendedRefLoads(lines, v, nt);
  }

  /** The index of the first line that starts with the name (`lines[index].startswith(name)`). */
  function FirstPrefixed(lines: seq<string>, name: string): (r: Option<nat>)
    ensures r.Some? ==> r.value < |lines| && StartsWith(lines[r.value], name)
    ensures r.Some? ==> forall m :: 0 <= m < r.value ==> !StartsWith(lines[m], name)
    ensures r.None? ==> forall m :: 0 <= m < |lines| ==> !StartsWith(lines[m], name)
  {
    FirstWhere(lines, (l: string) => StartsWith(l, name))
  }

  /** The update of the reference file: the first line starting with the name becomes `line`. */
  function ReplaceFirst(lines: seq<string>, name: string, line: string): (r: seq<string>)
    ensures |r| == |lines|
  {
    match FirstPrefixed(lines, name)
    case None => lines
    case Some(i) => lines[i := line]
  }

  /** The line replaced is the first one starting with the name; every other line stays. */
  lemma ReplaceFirstAt(lines: seq<string>, name: string, line: string, k: nat)
    requires k < |lines| && StartsWith(lines[k], name)
    requires forall m :: 0 <= m < k ==> !StartsWith(lines[m], name)
    ensures ReplaceFirst(lines, name, line) == lines[k := line]
  {
    var i := FirstPrefixed(lines, name).value;
    assert !(i < k) && !(k < i);
  }

  /** A file without a line starting with the name is written back unchanged. */
  lemma ReplaceFirstAbsent(lines: seq<string>, name: string, line: string)
    requires forall m :: 0 <= m < |lines| ==> !StartsWith(lines[m], name)
    ensures ReplaceFirst(lines, name, line) == lines
  {
  }

  /** Updating twice with a line that starts with the name is updating once. */
  lemma ReplaceFirstIdempotent(lines: seq<string>, name: string, line: string)
    requires StartsWith(line, name)
    ensures ReplaceFirst(ReplaceFirst(lines, name, line), name, line) == ReplaceFirst(lines, name, line)
  {
    match FirstPrefixed(lines, name) {
      case None =>
      case Some(k) =>
        var r := lines[k := line];
        forall m | 0 <= m < k ensures !StartsWith(r[m], name) {
          assert r[m] == lines[m];
        }
        ReplaceFirstAt(r, name, line, k);
        assert r[k := line] == r;
    }
  }

  /** Replacing a line by a whole line keeps the file in line form. */
  lemma ReplaceKeepsLines(lines: seq<string>, name: string, line: string)
    requires IsLines(lines) && IsLine(line) && EndsWithNewline(line)
    ensures IsLines(ReplaceFirst(lines, name, line))
  {
  }

  /**
   * The match is on a prefix of the line, not on its name field: updating "cd"
   * overwrites the record of "cd-1" when that comes first, and leaves the record
   * of "cd" itself as it was.
   */
  lemma PrefixMatchHitsLongerName(line: string)
    ensures var lines := ["cd-1?ydata?Drag?0.0?1.0\n", "cd?ydata?Lift?0.0?1.0\n"];
      ReplaceFirst(lines, "cd", line) == [line, lines[1]]
  {
    var lines := ["cd-1?ydata?Drag?0.0?1.0\n", "cd?ydata?Lift?0.0?1.0\n"];
    assert lines[0][..2] == "cd";
    ReplaceFirstAt(lines, "cd", line, 0);
  }

  /** The update loop over the lines read from the reference file. */
  method UpdateLines(lines: seq<string>, name: string, line: string) returns (r: seq<string>)
    ensures r == ReplaceFirst(lines, name, line)
  {
    r := lines;
    var index := 0;
    while index < |r|
      invariant 0 <= index <= |r| && r == lines
      invariant forall m :: 0 <= m < index ==> !StartsWith(lines[m], name)
    {
      if StartsWith(r[index], name) {
        ReplaceFirstAt(lines, name, line, index);
        r := r[index := line];
        return;
      }
      index := index + 1;
    }
    ReplaceFirstAbsent(lines, name, line);
  }

  // ---------------------------------------------------------------------------
  // Writing the settings of a classified quantity back

  /**
   * The reference file after the save question for a classified quantity `v`:
   * appended to when no loaded record has its name, updated in place otherwise.
   */
  function WriteBack(lines: seq<string>, v: QuantityValue, refs: seq<Reference>, save: bool, nt: NumberText): (r: seq<string>)
    requires v.kind.Some? && v.descr.Some?
  {
    if !save then lines
    else if FirstRef(refs, v.name).None? then AppendText(lines, RefLine(v, nt) + "\n")
    else ReplaceFirst(lines, v.name, RefLine(v, nt) + "\n")
  }

  /** The reference file stays in line form when the saved line holds no newline. */
  lemma WriteBackKeepsLines(lines: seq<string>, v: QuantityValue, refs: seq<Reference>, save: bool, nt: NumberText)
    requires v.kind.Some? && v.descr.Some? && IsLines(lines)
    requires '\n' !in RefLine(v, nt)
    ensures IsLines(WriteBack(lines, v, refs, save, nt))
  {
    var t := RefLine(v, nt) + "\n";
    forall j | 0 <= j < |t| - 1 ensures t[j] != '\n' {
      assert t[j] == RefLine(v, nt)[j];
    }
    if save {
      if FirstRef(refs, v.name).None? { AppendKeepsLines(lines, t); } else { ReplaceKeepsLines(lines, v.name, t); }
    }
  }

  /** The `refmatch` loop. */
  method HasRecord(refs: seq<Reference>, name: string) returns (found: bool)
    ensures found <==> FirstRef(refs, name).Some?
  {
    found := false;
    var j := 0;
    while j < |refs|
      invariant 0 <= j <= |refs|
      invariant forall m :: 0 <= m < j ==> refs[m].name != name
    {
      if name == refs[j].name {
        found := true;
        return;
      }
      j := j + 1;
    }
  }

  /** Build the reference line, look for a loaded record of the name, then append or update. */
  method SaveSettings(lines: seq<string>, v: QuantityValue, refs: seq<Reference>, save: bool, nt: NumberText)
    returns (r: seq<string>)
    requires v.kind.Some? && v.descr.Some?
    ensures r == WriteBack(lines, v, refs, save, nt)
  {
    var newline := RefLine(v, nt);
    var refmatch := HasRecord(refs, v.name);
    r := lines;
    if !refmatch {
      if save {
        r := AppendText(lines, newline + "\n");
      }
    } else if save {
      r := UpdateLines(lines, v.name, newline + "\n");
    }
  }

  /** The reference file after the classification loop has handled the first `|vs|` quantities. */
  function StoreAfter(lines: seq<string>, vs: seq<QuantityValue>, answers: seq<Answers>, refs: seq<Reference>, nt: NumberText)
    : seq<string>
    requires |answers| == |vs|
    requires forall i :: 0 <= i < |vs| ==> vs[i].kind.None? ==> Accepted(answers[i], nt)
    decreases |vs|
  {
    if vs == [] then lines
    else
      var n := |vs| - 1;
      var s := StoreAfter(lines, vs[..n], answers[..n], refs, nt);
      if vs[n].kind.Some? then s
      else
        var c := Classified(vs[n], answers[n], nt);
        assert c.kind.Some? && c.descr.Some?;
        WriteBack(s, c, refs, answers[n].save, nt)
  }

  /** One more quantity handled by the classification loop. */
  lemma StoreAfterStep(lines: seq<string>, vs: seq<QuantityValue>, answers: seq<Answers>, refs: seq<Reference>,
                       nt: NumberText, i: nat)
    requires |answers| == |vs| && i < |vs|
    requires forall j :: 0 <= j < |vs| ==> vs[j].kind.None? ==> Accepted(answers[j], nt)
    ensures vs[i].kind.Some? ==>
      StoreAfter(lines, vs[..i + 1], answers[..i + 1], refs, nt) == StoreAfter(lines, vs[..i], answers[..i], refs, nt)
    ensures vs[i].kind.None? ==>
      StoreAfter(lines, vs[..i + 1], answers[..i + 1], refs, nt)
      == WriteBack(StoreAfter(lines, vs[..i], answers[..i], refs, nt), Classified(vs[i], answers[i], nt), refs, answers[i].save, nt)
  {
    assert vs[..i + 1][..i] == vs[..i] && answers[..i + 1][..i] == answers[..i];
  }

  /**
   * `AnswersFit`: every untyped quantity has accepted answers, and its reference
   * line will hold no newline.
   */
  ghost predicate AnswersFit(vs: seq<QuantityValue>, answers: seq<Answers>, nt: NumberText) {
    && |answers| == |vs|
    && forall i :: 0 <= i < |vs| ==> vs[i].kind.None? ==>
         Accepted(answers[i], nt) && '\n' !in RefLine(Classified(vs[i], answers[i], nt), nt)
  }

  /** The classification loop leaves the reference file in line form. */
  lemma {:induction false} StoreAfterKeepsLines(lines: seq<string>, vs: seq<QuantityValue>, answers: seq<Answers>, refs: seq<Reference>, nt: NumberText)
    requires AnswersFit(vs, answers, nt) && IsLines(lines)
    ensures IsLines(StoreAfter(lines, vs, answers, refs, nt))
    decreases |vs|
  {
    if vs != [] {
      var n := |vs| - 1;
      assert AnswersFit(vs[..n], answers[..n], nt) by {
        forall i | 0 <= i < n ensures vs[..n][i] == vs[i] && answers[..n][i] == answers[i] { }
      }
      StoreAfterKeepsLines(lines, vs[..n], answers[..n], refs, nt);
      if vs[n].kind.None? {
        var c := Classified(vs[n], answers[n], nt);
        WriteBackKeepsLines(StoreAfter(lines, vs[..n], answers[..n], refs, nt), c, refs, answers[n].save, nt);
      }
    }
  }

  /** One pass of the classification loop: an untyped quantity is classified and its settings saved. */
  method HandleQuantity(quant: Quantity, refs: seq<Reference>, a: Answers, lines: seq<string>, nt: NumberText)
    returns (store: seq<string>)
    requires quant.kind.None? ==> Accepted(a, nt)
    modifies quant
    ensures quant.Value() == ClassifyOne(old(quant.Value()), a, nt)
    ensures old(quant.kind).Some? ==> store == lines
    ensures old(quant.kind).None? ==> store == WriteBack(lines, Classified(old(quant.Value()), a, nt), refs, a.save, nt)
  {
    store := lines;
    if quant.kind.None? {
      ClassifyQuantity(quant, a, nt);
      store := SaveSettings(lines, quant.Value(), refs, a.save, nt);
    }
  }

  /**
   * The loop "enter attributes of remaining quantities": classify every untyped
   * quantity, then save its settings to the reference file as answered.
   */
  method ClassifyRemaining(quantities: seq<Quantity>, refs: seq<Reference>, answers: seq<Answers>,
                           lines: seq<string>, nt: NumberText)
    returns (store: seq<string>)
    requires Distinct(quantities) && |answers| == |quantities|
    requires forall i :: 0 <= i < |quantities| ==> quantities[i].kind.None? ==> Accepted(answers[i], nt)
    modifies set q | q in quantities
    ensures forall i :: 0 <= i < |quantities| ==>
      quantities[i].Value() == ClassifyOne(old(quantities[i].Value()), answers[i], nt)
    ensures store == StoreAfter(lines, old(Values(quantities)), answers, refs, nt)
  {
    ghost var vs := Values(quantities);
    store := lines;
    var i := 0;
    while i < |quantities|
      invariant 0 <= i <= |quantities|
      invariant forall j :: 0 <= j < i ==> quantities[j].Value() == ClassifyOne(vs[j], answers[j], nt)
      invariant forall j :: i <= j < |quantities| ==> quantities[j].Value() == vs[j]
      invariant store == StoreAfter(lines, vs[..i], answers[..i], refs, nt)
    {
      StoreAfterStep(lines, vs, answers, refs, nt, i);
      assert quantities[i].Value() == vs[i];
      store := HandleQuantity(quantities[i], refs, answers[i], store, nt);
      assert store == StoreAfter(lines, vs[..i + 1], answers[..i + 1], refs, nt);
      i := i + 1;
    }
    assert vs[..i] == vs && answers[..i] == answers;
  }

  // ---------------------------------------------------------------------------
  // The gate

  /** Some quantity among the first `n` has the given type. */
  ghost predicate TypedAmong(vs: seq<QuantityValue>, t: string, n: nat) {
    exists j :: 0 <= j < n && j < |vs| && vs[j].kind == Some(t)
  }

  /** The check that at least one "xdata" and one "ydata" quantity exist; `false` ends the program. */
  method CheckGate(quantities: seq<Quantity>) returns (ok: bool)
    ensures ok <==> (TypedAmong(Values(quantities), "xdata", |quantities|)
                     && TypedAmong(Values(quantities), "ydata", |quantities|))
  {
    ghost var vs := Values(quantities);
    var xquantexists := false;
    var yquantexists := false;
    var i := 0;
    while i < |quantities|
      invariant 0 <= i <= |quantities|
      invariant xquantexists <==> TypedAmong(vs, "xdata", i)
      invariant yquantexists <==> TypedAmong(vs, "ydata", i)
    {
      if quantities[i].kind == Some("xdata") {
        xquantexists := true;
      } else if quantities[i].kind == Some("ydata") {
        yquantexists := true;
      }
      i := i + 1;
    }
    ok := xquantexists && yquantexists;
  }
}
