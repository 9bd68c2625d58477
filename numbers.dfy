/**
 * Number text. The tool turns text into numbers with Python's `float(...)` and
 * numbers into text with `str(...)` / f-strings. Neither is modelled as IEEE-754
 * behaviour: both are given as functions, together with the set of reals a float
 * can hold, and the only facts used about them are the ones `Numeral` and
 * `RoundTrips` state. `IntegerText` is one `NumberText` that has both.
 */
module Numbers {
  import opened Common
  import opened Text

  /**
   * `format` is `str(x)` for a float `x`; `parse` is `float(t)`, `None` where it
   * raises ValueError; `isFloat` holds of the reals a float can hold.
   */
  datatype NumberText = NumberText(format: real -> string, parse: string -> Option<real>, isFloat: real -> bool)

  /** The characters `str(x)` can produce for a float: digits, sign, point, exponent, `inf`, `nan`. */
  predicate IsNumeralChar(c: char) {
    ('0' <= c <= '9') || c == '.' || c == '-' || c == '+' || c == 'e' || c == 'i' || c == 'n'
    || c == 'f' || c == 'a'
  }

  /** `str(x)` is a non-empty word over the numeral alphabet. */
  ghost predicate Numeral(nt: NumberText) {
    && (forall r :: nt.format(r) != [])
    && (forall r, i :: 0 <= i < |nt.format(r)| ==> IsNumeralChar(nt.format(r)[i]))
  }

  /**
   * `float(str(x)) == x` for every float `x`; what `float(t)` returns is a float;
   * `float("")` raises; and the defaults 0.0 and 1.0 are floats.
   */
  ghost predicate RoundTrips(nt: NumberText) {
    && (forall r :: nt.isFloat(r) ==> nt.parse(nt.format(r)) == Some(r))
    && (forall t :: nt.parse(t).Some? ==> nt.isFloat(nt.parse(t).value))
    && nt.parse("") == None
    && nt.isFloat(0.0) && nt.isFloat(1.0)
  }

  ghost predicate Faithful(nt: NumberText) {
    Numeral(nt) && RoundTrips(nt)
  }

  /** `float(str(x)) == x` for a float `x`. */
  lemma FormatParses(x: real, nt: NumberText)
    requires RoundTrips(nt) && nt.isFloat(x)
    ensures nt.parse(nt.format(x)) == Some(x)
  {
  }

  /** Every number of the list is a float. */
  ghost predicate AllFloats(rs: seq<real>, nt: NumberText) {
    forall i :: 0 <= i < |rs| ==> nt.isFloat(rs[i])
  }

  /** A numeral never holds one of the whitespace characters. */
  lemma NumeralNotSpace(c: char)
    requires IsNumeralChar(c)
    ensures !IsSpace(c)
  {
  }

  // ---------------------------------------------------------------------------
  // A NumberText with both properties: integers in decimal

  /** An integer in decimal, with a leading '-' when it is negative. */
  function IntText(n: int): string {
    if n >= 0 then NatToString(n) else "-" + NatToString(-n)
  }

  predicate AllDigits(s: string) {
    forall i :: 0 <= i < |s| ==> IsDigit(s[i])
  }

  /** Reads a decimal integer with an optional leading '-'. */
  function IntParse(t: string): Option<real> {
    if t != [] && AllDigits(t) then Some(DecimalValue(t) as real)
    else if |t| > 1 && t[0] == '-' && AllDigits(t[1..]) then Some(-(DecimalValue(t[1..]) as real))
    else None
  }

  predicate IsInteger(r: real) {
    r == r.Floor as real
  }

  /** The integers, written in decimal: every real is shown as its floor, and the integers read back. */
  function IntegerText(): NumberText {
    NumberText((r: real) => IntText(r.Floor), IntParse, IsInteger)
  }

  lemma IntTextReadsBack(n: int)
    ensures IntText(n) != []
    ensures forall i :: 0 <= i < |IntText(n)| ==> IsNumeralChar(IntText(n)[i])
    ensures IntParse(IntText(n)) == Some(n as real)
  {
    if n >= 0 {
      NatToStringDigits(n);
    } else {
      NatToStringDigits(-n);
      var t := IntText(n);
      assert t[1..] == NatToString(-n);
      assert !IsDigit(t[0]);
    }
  }

  /** What `IntParse` reads is an integer. */
  lemma IntParseInteger(t: string)
    requires IntParse(t).Some?
    ensures IsInteger(IntParse(t).value)
  {
    if t != [] && AllDigits(t) {
      var n := DecimalValue(t);
      assert (n as real).Floor == n;
    } else {
      var n: int := DecimalValue(t[1..]);
      assert (-(n as real)).Floor == -n;
    }
  }

  /** `Numeral` and `RoundTrips` can be met together. */
  lemma IntegerTextFaithful()
    ensures Faithful(IntegerText())
  {
    var nt := IntegerText();
    forall r ensures nt.format(r) != [] && forall i :: 0 <= i < |nt.format(r)| ==> IsNumeralChar(nt.format(r)[i]) {
      assert nt.format(r) == IntText(r.Floor);
      IntTextReadsBack(r.Floor);
    }
    forall r | nt.isFloat(r) ensures nt.parse(nt.format(r)) == Some(r) {
      assert nt.format(r) == IntText(r.Floor);
      IntTextReadsBack(r.Floor);
    }
    forall t | nt.parse(t).Some? ensures nt.isFloat(nt.parse(t).value) {
      IntParseInteger(t);
    }
  }
}
