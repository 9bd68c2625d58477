/**
 * The `Quantity` record of the tool: a named data channel with its type
 * (`None` until classified, then "none", "xdata" or "ydata", or whatever a
 * reference record says), description, offset, scaling factor and the number of
 * files it was seen in; and the one-line reference record format (`getref`) with
 * its parser, fields joined by the delimiter `?`.
 */
module Quantities {
  import opened Common
  import opened Text
  import opened Numbers

  /** `ref_delimiter` */
  const RefDelimiter: char := '?'

  /** The state of one `Quantity` object, as a value. */
  datatype QuantityValue = QuantityValue(
    name: string,
    count: nat,
    kind: Option<string>,
    descr: Option<string>,
    offset: real,
    factor: real)

  /** A quantity as the reference file records it: every field present. */
  datatype Reference = Reference(name: string, kind: string, descr: string, offset: real, factor: real)

  /** A quantity the tool creates when it first meets a column name. */
  function Fresh(name: string): QuantityValue {
    QuantityValue(name, 1, None, None, 0.0, 1.0)
  }

  /**
   * The mutable quantity object. Series, the catalog and the per-dataset x/y lists
   * of the source share these objects; `kind` is the source's `type` field.
   */
  class Quantity {
    var name: string
    var count: nat
    var kind: Option<string>
    var descr: Option<string>
    var offset: real
    var factor: real

    /** The object's fields as a value. */
    function Value(): QuantityValue
      reads this
    {
      QuantityValue(name, count, kind, descr, offset, factor)
    }

    /** `Quantity(name, type, descr, offset, factor)`: a new object seen in one file. */
    constructor (name: string, kind: Option<string>, descr: Option<string>, offset: real, factor: real)
      ensures Value() == QuantityValue(name, 1, kind, descr, offset, factor)
    {
      this.name := name;
      this.count := 1;
      this.kind := kind;
      this.descr := descr;
      this.offset := offset;
      this.factor := factor;
    }

    /** `addcount` */
    method AddCount()
      modifies this
      ensures Value() == old(Value()).(count := old(count) + 1)
    {
      count := count + 1;
    }

    /** `settype` */
    method SetType(t: string)
      modifies this
      ensures Value() == old(Value()).(kind := Some(t))
    {
      kind := Some(t);
    }

    /** `setdescr` */
    method SetDescr(d: string)
      modifies this
      ensures Value() == old(Value()).(descr := Some(d))
    {
      descr := Some(d);
    }

    /** `setoffset` */
    method SetOffset(o: real)
      modifies this
      ensures Value() == old(Value()).(offset := o)
    {
      offset := o;
    }

    /** `setfactor` */
    method SetFactor(f: real)
      modifies this
      ensures Value() == old(Value()).(factor := f)
    {
      factor := f;
    }
  }

  /** The states of a list of quantity objects, in list order. */
  ghost function Values(qs: seq<Quantity>): (vs: seq<QuantityValue>)
    reads qs
    ensures |vs| == |qs|
    ensures forall i :: 0 <= i < |qs| ==> vs[i] == qs[i].Value()
  {
    seq(|qs|, i reads qs requires 0 <= i < |qs| => qs[i].Value())
  }

  /** No object occurs twice in the list. */
  ghost predicate Distinct(qs: seq<Quantity>) {
    forall i, j :: 0 <= i < j < |qs| ==> qs[i] != qs[j]
  }

  /** What an f-string shows for `getdescr()`: the description, or "None" while it is unset. */
  function DescrText(v: QuantityValue): string {
    match v.descr
    case Some(d) => d
    case None => "None"
  }

  /** The five fields of a reference record, in file order. */
  function RefFields(v: QuantityValue, nt: NumberText): seq<string>
    requires v.kind.Some? && v.descr.Some?
  {
    [v.name, v.kind.value, v.descr.value, nt.format(v.offset), nt.format(v.factor)]
  }

  /**
   * `getref`: name, type, description, offset and factor joined by `?`. The source
   * concatenates `self.type` and `self.descr`, which raises for `None`, so both
   * must be set.
   */
  function RefLine(v: QuantityValue, nt: NumberText): (line: string)
    requires v.kind.Some? && v.descr.Some?
    ensures line == Join(RefFields(v, nt), RefDelimiter)
    ensures StartsWith(line, v.name)
  {
    var line := v.name + [RefDelimiter] + v.kind.value + [RefDelimiter] + v.descr.value
      + [RefDelimiter] + nt.format(v.offset) + [RefDelimiter] + nt.format(v.factor);
    assert line[..|v.name|] == v.name;
    var fs := RefFields(v, nt);
    assert Join(fs[4..], RefDelimiter) == fs[4];
    assert Join(fs[3..], RefDelimiter) == fs[3] + [RefDelimiter] + Join(fs[4..], RefDelimiter);
    assert Join(fs[2..], RefDelimiter) == fs[2] + [RefDelimiter] + Join(fs[3..], RefDelimiter);
    assert Join(fs[1..], RefDelimiter) == fs[1] + [RefDelimiter] + Join(fs[2..], RefDelimiter);
    line
  }

  /** What becomes of one line of the reference file on load. */
  datatype RefParse =
    | NotARecord             // not exactly five fields: dropped
    | BadNumber              // five fields, but `float()` raises on the offset or the factor
    | Record(ref: Reference)

  /** `line.strip().split("?")`, kept when it has five fields; `Quantity(...)` then calls `float()`. */
  function ParseRefLine(line: string, nt: NumberText): RefParse {
    var e := Split(Strip(line), RefDelimiter);
    if |e| != 5 then NotARecord
    else match (nt.parse(e[3]), nt.parse(e[4]))
      case (Some(o), Some(f)) => Record(Reference(e[0], e[1], e[2], o, f))
      case _ => BadNumber
  }

  /** A reference line written by `getref`, with no `?` in its text fields, splits back into its five fields. */
  lemma RefLineFields(v: QuantityValue, nt: NumberText)
    requires Numeral(nt)
    requires v.kind.Some? && v.descr.Some?
    requires RefDelimiter !in v.name && RefDelimiter !in v.kind.value && RefDelimiter !in v.descr.value
    ensures Split(RefLine(v, nt), RefDelimiter) == RefFields(v, nt)
    ensures |Split(RefLine(v, nt), RefDelimiter)| == 5
  {
    var fs := RefFields(v, nt);
    forall i | 0 <= i < 5 ensures RefDelimiter !in fs[i] {
      if i >= 3 {
        var t := fs[i];
        assert t == nt.format(if i == 3 then v.offset else v.factor);
        forall k | 0 <= k < |t| ensures t[k] != RefDelimiter {
          assert IsNumeralChar(t[k]);
        }
      }
    }
    SplitJoin(fs, RefDelimiter);
  }

  /**
   * A reference line written by `getref`, with no `?` in its text fields and a
   * name that does not start with whitespace, is read back as the record it came
   * from, provided its offset and factor are floats.
   */
  lemma RefLineRoundTrip(v: QuantityValue, nt: NumberText)
    requires Faithful(nt)
    requires v.kind.Some? && v.descr.Some?
    requires RefDelimiter !in v.name && RefDelimiter !in v.kind.value && RefDelimiter !in v.descr.value
    requires v.name != [] ==> !IsSpace(v.name[0])
    requires nt.isFloat(v.offset) && nt.isFloat(v.factor)
    ensures ParseRefLine(RefLine(v, nt) + "\n", nt)
         == Record(Reference(v.name, v.kind.value, v.descr.value, v.offset, v.factor))
  {
    var line := RefLine(v, nt);
    RefLineFields(v, nt);
    var f := nt.format(v.factor);
    assert f != [] && IsNumeralChar(f[|f| - 1]);
    assert line[|line| - 1] == f[|f| - 1];
    assert line[0] == if v.name == [] then RefDelimiter else v.name[0];
    StripLine(line);
  }

  /** The reference list `ref_quantities` loaded from the lines of the file; `None` when a `float()` raises. */
  function LoadedRefs(lines: seq<string>, nt: NumberText): Option<seq<Reference>>
    decreases |lines|
  {
    if lines == [] then Some([])
    else
      match LoadedRefs(lines[..|lines| - 1], nt)
      case None => None
      case Some(rs) =>
        match ParseRefLine(lines[|lines| - 1], nt)
        case NotARecord => Some(rs)
        case BadNumber => None
        case Record(r) => Some(rs + [r])
  }

  /** Loading fails exactly when some five-field line has a number `float()` cannot read. */
  lemma {:induction false} LoadFailsOnBadNumber(lines: seq<string>, nt: NumberText)
    ensures LoadedRefs(lines, nt).None? <==> exists i :: 0 <= i < |lines| && ParseRefLine(lines[i], nt).BadNumber?
    decreases |lines|
  {
    if lines != [] {
      var init := lines[..|lines| - 1];
      LoadFailsOnBadNumber(init, nt);
      assert forall i :: 0 <= i < |init| ==> init[i] == lines[i];
    }
  }

  /** Every loaded reference is the record of some line of the file (so one with exactly five fields). */
  lemma {:induction false} LoadedRefsFromLines(lines: seq<string>, nt: NumberText, k: nat)
    requires LoadedRefs(lines, nt).Some? && k < |LoadedRefs(lines, nt).value|
    ensures exists i :: 0 <= i < |lines| && ParseRefLine(lines[i], nt) == Record(LoadedRefs(lines, nt).value[k])
    ensures exists i :: 0 <= i < |lines| && |Split(Strip(lines[i]), RefDelimiter)| == 5
    decreases |lines|
  {
    var init := lines[..|lines| - 1];
    var rs := LoadedRefs(init, nt).value;
    if k < |rs| {
      LoadedRefsFromLines(init, nt, k);
      var i :| 0 <= i < |init| && ParseRefLine(init[i], nt) == Record(rs[k]);
      assert lines[i] == init[i];
    } else {
      assert ParseRefLine(lines[|lines| - 1], nt).Record?;
    }
  }

  /** The offset and factor of a loaded reference are what `float()` returned, so floats. */
  lemma LoadedRefsFloats(lines: seq<string>, nt: NumberText, k: nat)
    requires RoundTrips(nt)
    requires LoadedRefs(lines, nt).Some? && k < |LoadedRefs(lines, nt).value|
    ensures nt.isFloat(LoadedRefs(lines, nt).value[k].offset) && nt.isFloat(LoadedRefs(lines, nt).value[k].factor)
  {
    LoadedRefsFromLines(lines, nt, k);
    var i :| 0 <= i < |lines| && ParseRefLine(lines[i], nt) == Record(LoadedRefs(lines, nt).value[k]);
    var e := Split(Strip(lines[i]), RefDelimiter);
    assert nt.parse(e[3]).Some? && nt.parse(e[4]).Some?;
  }

  /** A line appended by `getref` is loaded back, after the records already there. */
  lemma AppendedRefLoads(lines: seq<string>, v: QuantityValue, nt: NumberText)
    requires Faithful(nt) && LoadedRefs(lines, nt).Some?
    requires v.kind.Some? && v.descr.Some?
    requires RefDelimiter !in v.name && RefDelimiter !in v.kind.value && RefDelimiter !in v.descr.value
    requires v.name != [] ==> !IsSpace(v.name[0])
    requires nt.isFloat(v.offset) && nt.isFloat(v.factor)
    ensures LoadedRefs(lines + [RefLine(v, nt) + "\n"], nt)
         == Some(LoadedRefs(lines, nt).value + [Reference(v.name, v.kind.value, v.descr.value, v.offset, v.factor)])
  {
    RefLineRoundTrip(v, nt);
    assert (lines + [RefLine(v, nt) + "\n"])[..|lines|] == lines;
  }

  /** `LoadReferences`: the loop of the source over the lines of the reference file. */
  method LoadReferences(lines: seq<string>, nt: NumberText) returns (refs: Option<seq<Reference>>)
    ensures refs == LoadedRefs(lines, nt)
  {
    var acc: seq<Reference> := [];
    var i := 0;
    while i < |lines|
      invariant 0 <= i <= |lines|
      invariant LoadedRefs(lines[..i], nt) == Some(acc)
    {
      assert lines[..i + 1][..i] == lines[..i];
      match ParseRefLine(lines[i], nt) {
        case NotARecord =>
        case BadNumber =>
          LoadFailsOnBadNumber(lines, nt);
          return None;
        case Record(r) =>
          acc := acc + [r];
      }
      i := i + 1;
    }
    assert lines[..i] == lines;
    refs := Some(acc);
  }

  /** The index of the first reference with the given name. */
  function FirstRef(refs: seq<Reference>, name: string): (r: Option<nat>)
    ensures r.Some? ==> r.value < |refs| && refs[r.value].name == name
    ensures r.Some? ==> forall k :: 0 <= k < r.value ==> refs[k].name != name
    ensures r.None? ==> forall k :: 0 <= k < |refs| ==> refs[k].name != name
  {
    FirstWhere(refs, (r: Reference) => r.name == name)
  }
}
