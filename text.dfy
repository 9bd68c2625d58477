/**
 * The string operations of Python's `str` that the tool relies on, written out
 * with the semantics CPython gives them: `split(d)`, `split()`, `strip()`,
 * `startswith`, `replace(p, "")`, `replace(" ", "-")`, the slice `[1::2]`,
 * `str(int)` for natural numbers, and the one regular expression the tool uses,
 * `re.sub(r"-\[.*?\]", "", s)`.
 */
module Text {
  import opened Common

  /** The characters CPython's `str.split()` and `str.strip()` treat as whitespace. */
  predicate IsSpace(c: char) {
    var k := c as int;
    k == 32 || (9 <= k <= 13) || (28 <= k <= 31) || k == 0x85 || k == 0xA0 || k == 0x1680
    || (0x2000 <= k <= 0x200A) || k == 0x2028 || k == 0x2029 || k == 0x202F || k == 0x205F
    || k == 0x3000
  }

  /** `s.startswith(p)` */
  predicate StartsWith(s: string, p: string) {
    |p| <= |s| && s[..|p|] == p
  }

  /** `p` occurs in `s` starting at index `i`. */
  predicate OccursAt(s: string, p: string, i: nat) {
    i + |p| <= |s| && s[i..i + |p|] == p
  }

  /** `p in s` for a pattern `p`: `p` occurs somewhere in `s` as a contiguous piece. */
  predicate Occurs(s: string, p: string) {
    exists i: nat :: i <= |s| && OccursAt(s, p, i)
  }

  // ---------------------------------------------------------------------------
  // split(d) and join

  /** `s.split(d)` for a one-character separator `d`. */
  function Split(s: string, d: char): (r: seq<string>)
    ensures |r| >= 1
    ensures forall i :: 0 <= i < |r| ==> d !in r[i]
    decreases |s|
  {
    if s == [] then [""]
    else
      var rest := Split(s[1..], d);
      if s[0] == d then [""] + rest else [[s[0]] + rest[0]] + rest[1..]
  }

  /** `d.join(fs)` */
  function Join(fs: seq<string>, d: char): string
    decreases |fs|
  {
    if fs == [] then "" else if |fs| == 1 then fs[0] else fs[0] + [d] + Join(fs[1..], d)
  }

  lemma {:induction false} SplitNoDelimiter(a: string, d: char)
    requires d !in a
    ensures Split(a, d) == [a]
    decreases |a|
  {
    if a != [] {
      SplitNoDelimiter(a[1..], d);
      assert [a[0]] + a[1..] == a;
    }
  }

  lemma {:induction false} SplitAfterPiece(a: string, d: char, rest: string)
    requires d !in a
    ensures Split(a + [d] + rest, d) == [a] + Split(rest, d)
    decreases |a|
  {
    var s := a + [d] + rest;
    if a == [] {
      assert s[1..] == rest;
    } else {
      assert s[1..] == a[1..] + [d] + rest;
      SplitAfterPiece(a[1..], d, rest);
      assert [a[0]] + a[1..] == a;
    }
  }

  /** Splitting a `d`-joined list of `d`-free fields gives the fields back. */
  lemma {:induction false} SplitJoin(fs: seq<string>, d: char)
    requires |fs| >= 1
    requires forall i :: 0 <= i < |fs| ==> d !in fs[i]
    ensures Split(Join(fs, d), d) == fs
    decreases |fs|
  {
    if |fs| == 1 {
      SplitNoDelimiter(fs[0], d);
    } else {
      SplitJoin(fs[1..], d);
      SplitAfterPiece(fs[0], d, Join(fs[1..], d));
      assert [fs[0]] + fs[1..] == fs;
    }
  }

  /** Joining what `split(d)` produced gives the original string back. */
  lemma {:induction false} JoinSplit(s: string, d: char)
    ensures Join(Split(s, d), d) == s
    decreases |s|
  {
    if s != [] {
      var rest := Split(s[1..], d);
      JoinSplit(s[1..], d);
      if s[0] == d {
        assert Split(s, d) == [""] + rest;
        if |rest| == 1 {
          assert Join([""] + rest, d) == "" + [d] + rest[0];
        } else {
          assert ([""] + rest)[1..] == rest;
        }
        assert [s[0]] + s[1..] == s;
      } else {
        var r := [[s[0]] + rest[0]] + rest[1..];
        assert Split(s, d) == r;
        if |rest| == 1 {
          assert Join(r, d) == [s[0]] + rest[0];
        } else {
          assert r[1..] == rest[1..];
          assert Join(rest, d) == rest[0] + [d] + Join(rest[1..], d);
        }
        assert [s[0]] + s[1..] == s;
      }
    }
  }

  /** Joining one more field appends the separator and the field. */
  lemma {:induction false} JoinSnoc(fs: seq<string>, a: string, d: char)
    requires |fs| >= 1
    ensures Join(fs + [a], d) == Join(fs, d) + [d] + a
    decreases |fs|
  {
    if |fs| > 1 {
      assert (fs + [a])[1..] == fs[1..] + [a];
      JoinSnoc(fs[1..], a, d);
    }
  }

  /** The slice `ps[1::2]`: every odd-indexed element, in order. */
  function OddPieces<T>(ps: seq<T>): (r: seq<T>)
    ensures |r| == |ps| / 2
    ensures forall k :: 0 <= k < |r| ==> r[k] == ps[2 * k + 1]
    decreases |ps|
  {
    if |ps| < 2 then [] else [ps[1]] + OddPieces(ps[2..])
  }

  // ---------------------------------------------------------------------------
  // split() and strip()

  /** Length of the leading run of non-whitespace characters. */
  function WordEnd(s: string): (n: nat)
    ensures n <= |s|
    ensures forall i :: 0 <= i < n ==> !IsSpace(s[i])
    ensures n < |s| ==> IsSpace(s[n])
    decreases |s|
  {
    if s == [] || IsSpace(s[0]) then 0 else 1 + WordEnd(s[1..])
  }

  /** `s.split()`: the maximal runs of non-whitespace characters, in order. */
  function Tokens(s: string): (r: seq<string>)
    ensures forall i :: 0 <= i < |r| ==> r[i] != []
    ensures forall i, k :: 0 <= i < |r| && 0 <= k < |r[i]| ==> !IsSpace(r[i][k])
    decreases |s|
  {
    if s == [] then []
    else if IsSpace(s[0]) then Tokens(s[1..])
    else
      var n := WordEnd(s);
      [s[..n]] + Tokens(s[n..])
  }

  function StripLeft(s: string): (r: string)
    decreases |s|
  {
    if s != [] && IsSpace(s[0]) then StripLeft(s[1..]) else s
  }

  function StripRight(s: string): (r: string)
    decreases |s|
  {
    if s != [] && IsSpace(s[|s| - 1]) then StripRight(s[..|s| - 1]) else s
  }

  /** `s.strip()` */
  function Strip(s: string): string {
    StripRight(StripLeft(s))
  }

  lemma {:induction false} WordEndAppendSpace(s: string, c: char)
    requires IsSpace(c)
    ensures WordEnd(s + [c]) == WordEnd(s)
    decreases |s|
  {
    if s != [] && !IsSpace(s[0]) {
      assert (s + [c])[1..] == s[1..] + [c];
      WordEndAppendSpace(s[1..], c);
    }
  }

  lemma {:induction false} TokensAppendSpace(s: string, c: char)
    requires IsSpace(c)
    ensures Tokens(s + [c]) == Tokens(s)
    decreases |s|
  {
    var t := s + [c];
    if s == [] {
      assert Tokens(t) == Tokens(t[1..]);
      assert t[1..] == [];
    } else if IsSpace(s[0]) {
      assert t[1..] == s[1..] + [c];
      TokensAppendSpace(s[1..], c);
    } else {
      var n := WordEnd(s);
      WordEndAppendSpace(s, c);
      assert t[..n] == s[..n];
      assert t[n..] == s[n..] + [c];
      TokensAppendSpace(s[n..], c);
    }
  }

  lemma {:induction false} TokensStripLeft(s: string)
    ensures Tokens(StripLeft(s)) == Tokens(s)
    decreases |s|
  {
    if s != [] && IsSpace(s[0]) {
      TokensStripLeft(s[1..]);
    }
  }

  lemma {:induction false} TokensStripRight(s: string)
    ensures Tokens(StripRight(s)) == Tokens(s)
    decreases |s|
  {
    if s != [] && IsSpace(s[|s| - 1]) {
      var p := s[..|s| - 1];
      assert s == p + [s[|s| - 1]];
      TokensAppendSpace(p, s[|s| - 1]);
      TokensStripRight(p);
    }
  }

  /** `s.strip().split()` splits exactly as `s.split()` does. */
  lemma TokensStrip(s: string)
    ensures Tokens(Strip(s)) == Tokens(s)
  {
    TokensStripLeft(s);
    TokensStripRight(StripLeft(s));
  }

  lemma WordEndWhole(t: string, rest: string)
    requires t != [] && forall k :: 0 <= k < |t| ==> !IsSpace(t[k])
    requires rest == [] || IsSpace(rest[0])
    ensures WordEnd(t + rest) == |t|
  {
    var s := t + rest;
    assert forall k :: 0 <= k < |t| ==> s[k] == t[k];
    if rest != [] {
      assert s[|t|] == rest[0];
    }
  }

  /** A row written as space-separated tokens splits back into those tokens. */
  lemma {:induction false} TokensJoin(ts: seq<string>)
    requires forall i :: 0 <= i < |ts| ==> ts[i] != []
    requires forall i, k :: 0 <= i < |ts| && 0 <= k < |ts[i]| ==> !IsSpace(ts[i][k])
    ensures Tokens(Join(ts, ' ')) == ts
    decreases |ts|
  {
    if |ts| == 1 {
      var t := ts[0];
      WordEndWhole(t, "");
      assert t + "" == t;
      assert t[|t|..] == [];
    } else if |ts| > 1 {
      var t := ts[0];
      var rest := " " + Join(ts[1..], ' ');
      var s := Join(ts, ' ');
      assert s == t + rest;
      WordEndWhole(t, rest);
      assert s[..|t|] == t;
      assert s[|t|..] == rest;
      assert Tokens(rest) == Tokens(rest[1..]);
      assert rest[1..] == Join(ts[1..], ' ');
      TokensJoin(ts[1..]);
      assert [ts[0]] + ts[1..] == ts;
    }
  }

  /** Stripping a line that ends in a newline and has no other whitespace at its ends. */
  lemma StripLine(s: string)
    requires s != [] && !IsSpace(s[0]) && !IsSpace(s[|s| - 1])
    ensures Strip(s + "\n") == s
  {
    var t := s + "\n";
    assert StripLeft(t) == t;
    assert t[..|t| - 1] == s;
    assert StripRight(t) == StripRight(s);
  }

  // ---------------------------------------------------------------------------
  // replace

  /** `s.replace(p, "")`: every non-overlapping occurrence of `p`, scanned left to right, removed. */
  function RemoveAll(s: string, p: string): (r: string)
    ensures |r| <= |s|
    decreases |s|
  {
    if p == [] || s == [] then s
    else if StartsWith(s, p) then RemoveAll(s[|p|..], p)
    else [s[0]] + RemoveAll(s[1..], p)
  }

  lemma {:induction false} RemoveAllAbsent(s: string, p: string)
    requires p != []
    ensures Occurs(s, p) || RemoveAll(s, p) == s
    decreases |s|
  {
    if s != [] {
      if StartsWith(s, p) {
        assert OccursAt(s, p, 0);
      } else {
        RemoveAllAbsent(s[1..], p);
        if Occurs(s[1..], p) {
          var i: nat :| i <= |s[1..]| && OccursAt(s[1..], p, i);
          assert s[1..][i..i + |p|] == s[i + 1..i + 1 + |p|];
          assert OccursAt(s, p, i + 1);
        }
      }
    }
  }

  lemma {:induction false} RemoveAllPresent(s: string, p: string)
    requires p != [] && Occurs(s, p)
    ensures |RemoveAll(s, p)| < |s|
    decreases |s|
  {
    var i: nat :| i <= |s| && OccursAt(s, p, i);
    if !StartsWith(s, p) {
      assert i != 0;
      assert s[1..][i - 1..i - 1 + |p|] == s[i..i + |p|];
      assert OccursAt(s[1..], p, i - 1);
      RemoveAllPresent(s[1..], p);
    }
  }

  /** `s.replace(p, "")` leaves `s` as it is exactly when `p` is empty or does not occur in `s`. */
  lemma RemoveAllUnchanged(s: string, p: string)
    ensures RemoveAll(s, p) == s <==> (p == [] || !Occurs(s, p))
  {
    if p != [] {
      RemoveAllAbsent(s, p);
      if Occurs(s, p) { RemoveAllPresent(s, p); }
    }
  }

  /** Removing `p` from `s + p`, where `p` first occurs at the end, gives `s`. */
  lemma {:induction false} RemoveAllTrailing(s: string, p: string)
    requires p != []
    requires forall i :: 0 <= i < |s| ==> !OccursAt(s + p, p, i)
    ensures RemoveAll(s + p, p) == s
    decreases |s|
  {
    if s == [] {
      assert s + p == p;
      assert (s + p)[|p|..] == [];
    } else {
      assert !OccursAt(s + p, p, 0);
      assert (s + p)[1..] == s[1..] + p;
      forall i | 0 <= i < |s[1..]| ensures !OccursAt(s[1..] + p, p, i) {
        assert !OccursAt(s + p, p, i + 1);
        if i + |p| <= |s[1..] + p| {
          assert (s[1..] + p)[i..i + |p|] == (s + p)[i + 1..i + 1 + |p|];
        }
      }
      RemoveAllTrailing(s[1..], p);
      assert [s[0]] + s[1..] == s;
    }
  }

  /** `s.replace(" ", "-")` */
  function ReplaceSpaces(s: string): (r: string)
    ensures |r| == |s|
    ensures forall i :: 0 <= i < |s| ==> r[i] == if s[i] == ' ' then '-' else s[i]
  {
    seq(|s|, i requires 0 <= i < |s| => if s[i] == ' ' then '-' else s[i])
  }

  // ---------------------------------------------------------------------------
  // re.sub(r"-\[.*?\]", "", s)

  /** Index of the first ']' at or after `j`, provided no newline comes first (`.` does not match a newline). */
  function CloseAt(s: string, j: nat): (r: Option<nat>)
    ensures r.Some? ==> j <= r.value < |s| && s[r.value] == ']'
    ensures r.Some? ==> forall k :: j <= k < r.value ==> s[k] != '\n'
    ensures r.None? ==> forall k :: j <= k < |s| && s[k] == ']' ==> exists m :: j <= m < k && s[m] == '\n'
    decreases |s| - j
  {
    if j >= |s| then None
    else if s[j] == ']' then Some(j)
    else if s[j] == '\n' then None
    else CloseAt(s, j + 1)
  }

  /** `s[i..j+1]` matches the pattern `-\[.*\]` within one line; `CloseAt` picks the first ']' as `.*?` does. */
  predicate TagAt(s: string, i: nat, j: nat) {
    i + 2 <= j < |s| && s[i] == '-' && s[i + 1] == '[' && s[j] == ']'
    && forall k :: i + 2 <= k < j ==> s[k] != '\n'
  }

  ghost predicate HasTag(s: string) {
    exists i: nat, j: nat :: TagAt(s, i, j)
  }

  /** The leftmost-first, non-overlapping removal `re.sub` performs for `-\[.*?\]`. */
  function StripTags(s: string): (r: string)
    ensures |r| <= |s|
    ensures forall c :: c in r ==> c in s
    decreases |s|
  {
    if |s| >= 2 && s[0] == '-' && s[1] == '[' && CloseAt(s, 2).Some? then
      StripTags(s[CloseAt(s, 2).value + 1..])
    else if s == [] then []
    else [s[0]] + StripTags(s[1..])
  }

  lemma {:induction false} StripTagsNoTag(s: string)
    ensures HasTag(s) || StripTags(s) == s
    decreases |s|
  {
    if |s| >= 2 && s[0] == '-' && s[1] == '[' && CloseAt(s, 2).Some? {
      assert TagAt(s, 0, CloseAt(s, 2).value);
    } else if s != [] {
      StripTagsNoTag(s[1..]);
      if HasTag(s[1..]) {
        var i: nat, j: nat :| TagAt(s[1..], i, j);
        assert TagAt(s, i + 1, j + 1);
      }
    }
  }

  lemma {:induction false} StripTagsShrinks(s: string)
    requires HasTag(s)
    ensures |StripTags(s)| < |s|
    decreases |s|
  {
    var i: nat, j: nat :| TagAt(s, i, j);
    if !(|s| >= 2 && s[0] == '-' && s[1] == '[' && CloseAt(s, 2).Some?) {
      assert i != 0;
      assert TagAt(s[1..], i - 1, j - 1);
      StripTagsShrinks(s[1..]);
    }
  }

  /** The substitution changes the name exactly when the pattern matches somewhere. */
  lemma StripTagsUnchanged(s: string)
    ensures StripTags(s) == s <==> !HasTag(s)
  {
    StripTagsNoTag(s);
    if HasTag(s) { StripTagsShrinks(s); }
  }

  // ---------------------------------------------------------------------------
  // str(n)

  function Digit(d: nat): char
    requires d < 10
  {
    ('0' as int + d) as char
  }

  /** `str(n)` for a natural number: its decimal digits, without leading zeros. */
  function NatToString(n: nat): string
    decreases n
  {
    if n < 10 then [Digit(n)] else NatToString(n / 10) + [Digit(n % 10)]
  }

  predicate IsDigit(c: char) {
    '0' <= c <= '9'
  }

  /** The number a string of decimal digits denotes. */
  function DecimalValue(s: string): nat
    requires forall i :: 0 <= i < |s| ==> IsDigit(s[i])
    decreases |s|
  {
    if s == [] then 0 else DecimalValue(s[..|s| - 1]) * 10 + DigitValue(s[|s| - 1])
  }

  function DigitValue(c: char): nat
    requires IsDigit(c)
  {
    c as int - '0' as int
  }

  /** `str(n)` is a non-empty string of digits that denotes `n`. */
  lemma {:induction false} NatToStringDigits(n: nat)
    ensures NatToString(n) != []
    ensures forall i :: 0 <= i < |NatToString(n)| ==> IsDigit(NatToString(n)[i])
    ensures DecimalValue(NatToString(n)) == n
    decreases n
  {
    if n >= 10 {
      NatToStringDigits(n / 10);
      var p := NatToString(n / 10);
      var s := p + [Digit(n % 10)];
      assert s[..|s| - 1] == p;
      assert DecimalValue(s) == DecimalValue(p) * 10 + n % 10;
    }
  }
}
