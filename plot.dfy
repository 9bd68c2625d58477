/**
 * What the plotting stage computes before it draws anything: the titles and file
 * names of individual and combined plots, the legend entries of a combined plot
 * and its per-series data lists. Drawing is not part of this model.
 */
module Plots {
  import opened Common
  import opened Text
  import opened Quantities
  import opened Derive

  // ---------------------------------------------------------------------------
  // Individual plots

  /** The title of an individual plot: none, the series header, or what the user typed. */
  function IndividualTitle(header: string, titled: bool, auto: bool, entered: string): (t: string)
    ensures !titled ==> t == ""
    ensures titled && auto ==> t == header
  {
    if titled then (if auto then header else entered) else ""
  }

  /** The file name of an individual plot: the header, with spaces turned into '-' once the plot has a title. */
  function IndividualName(header: string, title: string): (r: string)
    ensures |r| == |header|
    ensures title == "" ==> r == header
    ensures title != "" ==> ' ' !in r
    ensures forall i :: 0 <= i < |r| ==> r[i] == header[i] || (header[i] == ' ' && r[i] == '-')
  {
    if title == "" then header else ReplaceSpaces(header)
  }

  /**
   * The file name an individual plot gets: the header without a title, the header
   * with its spaces turned into '-' under the automatic title, and under a typed
   * title the dashed header unless the typed title is blank.
   */
  lemma IndividualPlotName(header: string, auto: bool, entered: string)
    ensures IndividualName(header, IndividualTitle(header, false, auto, entered)) == header
    ensures IndividualName(header, IndividualTitle(header, true, true, entered)) == ReplaceSpaces(header)
    ensures ' ' !in IndividualName(header, IndividualTitle(header, true, true, entered))
    ensures entered != "" ==> IndividualName(header, IndividualTitle(header, true, false, entered)) == ReplaceSpaces(header)
    ensures entered == "" ==> IndividualName(header, IndividualTitle(header, true, false, entered)) == header
  {
    if header == "" {
      assert ReplaceSpaces(header) == header;
    }
  }

  // ---------------------------------------------------------------------------
  // Combined plots

  /** `f"Comparison of {ydescr}"` */
  function ComparisonTitle(ydescr: string): string {
    "Comparison of " + ydescr
  }

  /** The title of a combined plot: none, "Comparison of <y description>", or what the user typed. */
  function CombinedTitle(titled: bool, auto: bool, entered: string, ydescr: string): (t: string)
    ensures !titled ==> t == ""
    ensures titled && auto ==> t == ComparisonTitle(ydescr)
  {
    if titled then (if auto then ComparisonTitle(ydescr) else entered) else ""
  }

  /**
   * The file name of a combined plot: the title, or "Comparison of <y description>"
   * when there is none, with spaces turned into '-' and every `-[...]` tag removed.
   */
  function CombinedName(title: string, ydescr: string): (r: string)
    ensures ' ' !in r
  {
    var text := if title == "" then ComparisonTitle(ydescr) else title;
    var dashed := ReplaceSpaces(text);
    assert ' ' !in dashed;
    StripTags(dashed)
  }

  /**
   * The file name a combined plot gets: with no title, with the automatic
   * "Comparison of <y description>" title or with a blank typed title, it is the
   * name of the untitled plot; with a typed title it is made from that title.
   */
  lemma CombinedPlotName(auto: bool, entered: string, ydescr: string)
    ensures CombinedName(CombinedTitle(false, auto, entered, ydescr), ydescr) == CombinedName("", ydescr)
    ensures CombinedName(CombinedTitle(true, true, entered, ydescr), ydescr) == CombinedName("", ydescr)
    ensures CombinedName(CombinedTitle(true, false, entered, ydescr), ydescr) == CombinedName(entered, ydescr)
    ensures entered != "" ==> CombinedName(entered, ydescr) == StripTags(ReplaceSpaces(entered))
  {
    assert ComparisonTitle(ydescr) != "";
  }

  /** A name whose dashed text holds no `-[...]` tag is just that dashed text. */
  lemma CombinedNameUntagged(title: string, ydescr: string)
    requires !HasTag(ReplaceSpaces(if title == "" then ComparisonTitle(ydescr) else title))
    ensures CombinedName(title, ydescr) == ReplaceSpaces(if title == "" then ComparisonTitle(ydescr) else title)
  {
    StripTagsUnchanged(ReplaceSpaces(if title == "" then ComparisonTitle(ydescr) else title));
  }

  /** A string without '[' holds no tag, so `re.sub` returns it unchanged. */
  lemma {:induction false} StripTagsBracketFree(s: string)
    requires '[' !in s
    ensures StripTags(s) == s
    decreases |s|
  {
    if s != [] {
      assert '[' !in s[1..];
      StripTagsBracketFree(s[1..]);
    }
  }

  /** A unit in brackets closing a text without '[' is removed with its dash. */
  lemma {:induction false} StripTagsTrailingUnit(s: string, u: string)
    requires '[' !in s && ']' !in u && '\n' !in u
    ensures StripTags(s + "-[" + u + "]") == s
    decreases |s|
  {
    var t := s + "-[" + u + "]";
    if s == [] {
      assert t == "-[" + u + "]";
      assert forall k :: 2 <= k < |t| - 1 ==> t[k] == u[k - 2];
      assert CloseAt(t, 2) == Some(|t| - 1) by {
        CloseAtRun(t, 2, |t| - 1);
      }
      assert t[|t|..] == [];
    } else {
      assert t[1..] == s[1..] + "-[" + u + "]";
      assert !(t[0] == '-' && t[1] == '[') by {
        if |s| >= 2 { assert t[1] == s[1]; } else { assert t[1] == '-'; }
      }
      StripTagsTrailingUnit(s[1..], u);
      assert [s[0]] + s[1..] == s;
    }
  }

  /** The first ']' from `j` on, past characters that are neither ']' nor a newline. */
  lemma {:induction false} CloseAtRun(s: string, j: nat, c: nat)
    requires j <= c < |s| && s[c] == ']'
    requires forall k :: j <= k < c ==> s[k] != ']' && s[k] != '\n'
    ensures CloseAt(s, j) == Some(c)
    decreases c - j
  {
    if j < c {
      CloseAtRun(s, j + 1, c);
    }
  }

  /**
   * The automatic name of a combined plot whose y description ends in a bracketed
   * unit ("Static Pressure [Pa]") is "Comparison-of-" and the description without the unit.
   */
  lemma ComparisonNameDropsUnit(descr: string, unit: string)
    requires '[' !in descr && ']' !in unit && '\n' !in unit && ' ' !in unit
    ensures CombinedName("", descr + " [" + unit + "]") == ReplaceSpaces(ComparisonTitle(descr))
  {
    var text := ComparisonTitle(descr + " [" + unit + "]");
    var s := ReplaceSpaces(ComparisonTitle(descr));
    assert ReplaceSpaces(text) == s + "-[" + unit + "]";
    assert '[' !in ComparisonTitle(descr);
    assert '[' !in s;
    StripTagsTrailingUnit(s, unit);
  }

  /** The file name of the `count`-th plot of the "other combinations" loop. */
  function SetName(base: string, count: nat): string {
    base + "-set" + NatToString(count)
  }

  /** The longest run of decimal digits that ends a string. */
  function TrailingDigits(s: string): string
    decreases |s|
  {
    if s != [] && IsDigit(s[|s| - 1]) then TrailingDigits(s[..|s| - 1]) + [s[|s| - 1]] else []
  }

  /** After a letter, a string of digits is exactly the trailing digit run. */
  lemma {:induction false} TrailingDigitsAfterLetter(x: string, s: string)
    requires forall i :: 0 <= i < |s| ==> IsDigit(s[i])
    ensures TrailingDigits(x + ['t'] + s) == s
    decreases |s|
  {
    var n := x + ['t'] + s;
    if s != [] {
      var p := s[..|s| - 1];
      assert n[..|n| - 1] == x + ['t'] + p;
      TrailingDigitsAfterLetter(x, p);
      assert p + [s[|s| - 1]] == s;
    } else {
      assert n[|n| - 1] == 't';
    }
  }

  /** Whatever the names they extend, two set names are equal only for the same count. */
  lemma SetNameCount(b1: string, b2: string, c1: nat, c2: nat)
    requires SetName(b1, c1) == SetName(b2, c2)
    ensures c1 == c2
  {
    NatToStringDigits(c1);
    NatToStringDigits(c2);
    assert SetName(b1, c1) == (b1 + "-se") + ['t'] + NatToString(c1);
    assert SetName(b2, c2) == (b2 + "-se") + ['t'] + NatToString(c2);
    TrailingDigitsAfterLetter(b1 + "-se", NatToString(c1));
    TrailingDigitsAfterLetter(b2 + "-se", NatToString(c2));
  }

  /** The legend entry of a series in a combined plot: its header without "-<y name>", then without "<y name>". */
  function Legend(header: string, yname: string): (r: string)
    ensures |r| <= |header|
  {
    RemoveAll(RemoveAll(header, "-" + yname), yname)
  }

  /** Where "-" + y occurs, y occurs one place later. */
  lemma OccursAfterDash(s: string, y: string)
    requires Occurs(s, "-" + y)
    ensures Occurs(s, y)
  {
    var i: nat :| i <= |s| && OccursAt(s, "-" + y, i);
    assert s[i + 1..i + 1 + |y|] == s[i..i + 1 + |y|][1..];
    assert OccursAt(s, y, i + 1);
  }

  /** A header that does not mention the y quantity is its own legend entry. */
  lemma LegendUnchanged(header: string, yname: string)
    requires yname != [] && !Occurs(header, yname)
    ensures Legend(header, yname) == header
  {
    if Occurs(header, "-" + yname) {
      OccursAfterDash(header, yname);
    }
    RemoveAllUnchanged(header, "-" + yname);
    RemoveAllUnchanged(header, yname);
  }

  /**
   * A header "<base>-<y name>", where "-<y name>" first occurs at the end and the
   * base does not mention the y name, has the base as its legend entry.
   */
  lemma LegendOfSuffixed(base: string, yname: string)
    requires yname != [] && !Occurs(base, yname)
    requires forall i :: 0 <= i < |base| ==> !OccursAt(base + ("-" + yname), "-" + yname, i)
    ensures Legend(base + "-" + yname, yname) == base
  {
    assert base + "-" + yname == base + ("-" + yname);
    RemoveAllTrailing(base, "-" + yname);
    RemoveAllUnchanged(base, yname);
  }

  /** The data and legend lists of a combined plot. */
  method CombinedSeries(sets: seq<Series>) returns (xdatasets: seq<seq<real>>, ydatasets: seq<seq<real>>, legend: seq<string>)
    ensures |xdatasets| == |ydatasets| == |legend| == |sets|
    ensures forall j :: 0 <= j < |sets| ==>
      && xdatasets[j] == sets[j].xdata && ydatasets[j] == sets[j].ydata
      && legend[j] == Legend(sets[j].header, sets[j].yquant.name)
  {
    xdatasets, ydatasets, legend := [], [], [];
    var j := 0;
    while j < |sets|
      invariant 0 <= j <= |sets|
      invariant |xdatasets| == |ydatasets| == |legend| == j
      invariant forall i :: 0 <= i < j ==>
        && xdatasets[i] == sets[i].xdata && ydatasets[i] == sets[i].ydata
        && legend[i] == Legend(sets[i].header, sets[i].yquant.name)
    {
      xdatasets := xdatasets + [sets[j].xdata];
      ydatasets := ydatasets + [sets[j].ydata];
      legend := legend + [Legend(sets[j].header, sets[j].yquant.name)];
      j := j + 1;
    }
  }
}
