/**
 * The two selection prompts: the numbers of the report files to process, and the
 * numbers of the series to combine into one plot. Each number `entry` that
 * `int()` accepts and that is at most the list length picks `items[entry - 1]`,
 * so, as in Python, 0 and negative numbers count from the end, and a number
 * below `1 - len` raises IndexError, which ends the program. A file is taken once;
 * a series is taken once per header, and only when its x and y descriptions
 * equal those of the first series taken. The "other combinations" loop numbers
 * the selections that gave a plot (at least two series) 1, 2, 3, ...
 */
module Selection {
  import opened Common
  import opened Quantities
  import opened Derive
  import opened Plots

  /** A selection, or the IndexError that ends the program. */
  datatype Picked<T> = Picked(sel: seq<T>) | IndexError

  /** What one typed token does. */
  datatype Choice = Skip | At(index: nat) | Fatal

  /** `items[entry - 1]` for `entry <= len`: the position it reads, or `None` where Python raises IndexError. */
  function PyIndex(len: nat, entry: int): (r: Option<nat>)
    requires entry <= len
    ensures r.Some? ==> r.value < len
    ensures r.Some? && entry >= 1 ==> r.value == entry - 1
    ensures r.Some? && entry < 1 ==> r.value == len + entry - 1
    ensures r.None? <==> entry < 1 - len
  {
    if entry - 1 >= 0 then Some(entry - 1)
    else if len + entry - 1 >= 0 then Some(len + entry - 1)
    else None
  }

  /**
   * One token: skipped when `int()` rejects it or it is above the list length,
   * fatal when the index is below the list, otherwise the position it picks.
   * `toInt` is `int()`, `None` where it raises ValueError.
   */
  function Choose(len: nat, token: string, toInt: string -> Option<int>): (c: Choice)
    ensures c.At? ==> c.index < len
  {
    match toInt(token)
    case None => Skip
    case Some(entry) =>
      if entry > len then Skip
      else match PyIndex(len, entry)
        case None => Fatal
        case Some(i) => At(i)
  }

  /** Some token raises IndexError. */
  ghost predicate AnyFatal(len: nat, tokens: seq<string>, toInt: string -> Option<int>) {
    exists t :: 0 <= t < |tokens| && Choose(len, tokens[t], toInt).Fatal?
  }

  /** A token raising IndexError makes the whole run fail, and only such a token does. */
  lemma AnyFatalSnoc(len: nat, tokens: seq<string>, token: string, toInt: string -> Option<int>)
    ensures AnyFatal(len, tokens + [token], toInt) <==>
      AnyFatal(len, tokens, toInt) || Choose(len, token, toInt).Fatal?
  {
    var ts := tokens + [token];
    if AnyFatal(len, ts, toInt) {
      var t :| 0 <= t < |ts| && Choose(len, ts[t], toInt).Fatal?;
      if t < |tokens| {
        assert ts[t] == tokens[t];
      }
    }
    if AnyFatal(len, tokens, toInt) {
      var t :| 0 <= t < |tokens| && Choose(len, tokens[t], toInt).Fatal?;
      assert ts[t] == tokens[t];
    }
    if Choose(len, token, toInt).Fatal? {
      assert ts[|tokens|] == token;
    }
  }

  // ---------------------------------------------------------------------------
  // Files

  /** The files the typed tokens select, each once, in the order first picked. */
  function PickFiles(outfiles: seq<string>, tokens: seq<string>, toInt: string -> Option<int>): Picked<string>
    decreases |tokens|
  {
    if tokens == [] then Picked([])
    else match PickFiles(outfiles, tokens[..|tokens| - 1], toInt)
      case IndexError => IndexError
      case Picked(files) =>
        match Choose(|outfiles|, tokens[|tokens| - 1], toInt)
        case Skip => Picked(files)
        case Fatal => IndexError
        case At(i) => if outfiles[i] in files then Picked(files) else Picked(files + [outfiles[i]])
  }

  /** The run fails exactly when some token raises IndexError. */
  lemma {:induction false} PickFilesFails(outfiles: seq<string>, tokens: seq<string>, toInt: string -> Option<int>)
    ensures PickFiles(outfiles, tokens, toInt).IndexError? <==> AnyFatal(|outfiles|, tokens, toInt)
    decreases |tokens|
  {
    if tokens != [] {
      var init := tokens[..|tokens| - 1];
      PickFilesFails(outfiles, init, toInt);
      assert init + [tokens[|tokens| - 1]] == tokens;
      AnyFatalSnoc(|outfiles|, init, tokens[|tokens| - 1], toInt);
    }
  }

  /**
   * A selection lists no file twice, lists only files some token picks, and
   * lists every file some token picks.
   */
  lemma {:induction false} PickFilesContents(outfiles: seq<string>, tokens: seq<string>, toInt: string -> Option<int>)
    requires PickFiles(outfiles, tokens, toInt).Picked?
    ensures var files := PickFiles(outfiles, tokens, toInt).sel;
      && (forall a, b :: 0 <= a < b < |files| ==> files[a] != files[b])
      && (forall a :: 0 <= a < |files| ==> exists t :: 0 <= t < |tokens| && Picks(outfiles, tokens[t], toInt, files[a]))
      && (forall t :: 0 <= t < |tokens| && Choose(|outfiles|, tokens[t], toInt).At? ==>
            outfiles[Choose(|outfiles|, tokens[t], toInt).index] in files)
    decreases |tokens|
  {
    if tokens != [] {
      var n := |tokens| - 1;
      var init := tokens[..n];
      PickFilesContents(outfiles, init, toInt);
      var files := PickFiles(outfiles, tokens, toInt).sel;
      forall a | 0 <= a < |files| ensures exists t :: 0 <= t < |tokens| && Picks(outfiles, tokens[t], toInt, files[a]) {
        if a < |PickFiles(outfiles, init, toInt).sel| {
          var t :| 0 <= t < |init| && Picks(outfiles, init[t], toInt, files[a]);
          assert tokens[t] == init[t];
        } else {
          assert Picks(outfiles, tokens[n], toInt, files[a]);
        }
      }
      forall t | 0 <= t < |tokens| && Choose(|outfiles|, tokens[t], toInt).At?
        ensures outfiles[Choose(|outfiles|, tokens[t], toInt).index] in files
      {
        if t < n {
          assert tokens[t] == init[t];
        }
      }
    }
  }

  /** The token picks the item `x`. */
  ghost predicate Picks<T>(items: seq<T>, token: string, toInt: string -> Option<int>, x: T) {
    var c := Choose(|items|, token, toInt);
    c.At? && items[c.index] == x
  }

  /** Is the file already selected? (the `included` loop) */
  method Included(files: seq<string>, file: string) returns (included: bool)
    ensures included <==> file in files
  {
    included := false;
    for j := 0 to |files|
      invariant included <==> file in files[..j]
    {
      if files[j] == file {
        included := true;
        assert files[..j + 1] == files[..j] + [file];
        break;
      }
      assert files[..j + 1] == files[..j] + [files[j]];
    }
    if !included {
      assert files[..|files|] == files;
    }
  }

  /** One answer to the file prompt, token by token. */
  method SelectFiles(outfiles: seq<string>, tokens: seq<string>, toInt: string -> Option<int>) returns (r: Picked<string>)
    ensures r == PickFiles(outfiles, tokens, toInt)
  {
    var files: seq<string> := [];
    var i := 0;
    while i < |tokens|
      invariant 0 <= i <= |tokens|
      invariant PickFiles(outfiles, tokens[..i], toInt) == Picked(files)
    {
      assert tokens[..i + 1][..i] == tokens[..i];
      match toInt(tokens[i]) {
        case None =>
        case Some(entry) =>
          if entry <= |outfiles| {
            var index := PyIndex(|outfiles|, entry);
            if index.None? {
              assert PickFiles(outfiles, tokens[..i + 1], toInt) == IndexError;
              PickFilesStaysFailed(outfiles, tokens, toInt, i + 1);
              assert tokens[..|tokens|] == tokens;
              return IndexError;
            }
            var file := outfiles[index.value];
            if |files| == 0 {
              files := files + [file];
            } else {
              var included := Included(files, file);
              if !included {
                files := files + [file];
              }
            }
          }
      }
      i := i + 1;
    }
    assert tokens[..i] == tokens;
    r := Picked(files);
  }

  /** Once a prefix of the tokens failed, every longer prefix fails. */
  lemma {:induction false} PickFilesStaysFailed(outfiles: seq<string>, tokens: seq<string>, toInt: string -> Option<int>, m: nat)
    requires m <= |tokens| && PickFiles(outfiles, tokens[..m], toInt).IndexError?
    ensures PickFiles(outfiles, tokens, toInt).IndexError?
    decreases |tokens| - m
  {
    if m < |tokens| {
      assert tokens[..m + 1][..m] == tokens[..m];
      PickFilesStaysFailed(outfiles, tokens, toInt, m + 1);
    } else {
      assert tokens[..m] == tokens;
    }
  }

  /** The outcome of the file prompt asked again until an answer selects some file. */
  function FirstSelection(outfiles: seq<string>, rounds: seq<seq<string>>, toInt: string -> Option<int>): (r: Option<Picked<string>>)
    ensures r.Some? && r.value.Picked? ==> |r.value.sel| > 0
    decreases |rounds|
  {
    if rounds == [] then None
    else match PickFiles(outfiles, rounds[0], toInt)
      case IndexError => Some(IndexError)
      case Picked(files) => if |files| > 0 then Some(Picked(files)) else FirstSelection(outfiles, rounds[1..], toInt)
  }

  /**
   * The files to process: all of them when the user says so, otherwise the first
   * answer that selects at least one file. `None` when the answers run out.
   */
  method ChooseFiles(outfiles: seq<string>, all: bool, rounds: seq<seq<string>>, toInt: string -> Option<int>)
    returns (r: Option<Picked<string>>)
    ensures r == if all then Some(Picked(outfiles)) else FirstSelection(outfiles, rounds, toInt)
  {
    if all {
      return Some(Picked(outfiles));
    }
    var k := 0;
    while k < |rounds|
      invariant 0 <= k <= |rounds|
      invariant FirstSelection(outfiles, rounds, toInt) == FirstSelection(outfiles, rounds[k..], toInt)
    {
      assert rounds[k..][1..] == rounds[k + 1..];
      var files := SelectFiles(outfiles, rounds[k], toInt);
      if files.IndexError? || |files.sel| > 0 {
        return Some(files);
      }
      k := k + 1;
    }
    return None;
  }

  // ---------------------------------------------------------------------------
  // Series for a combined plot

  /** The headers of the selected series. */
  function Headers(sets: seq<Series>): (hs: seq<string>)
    ensures |hs| == |sets|
  {
    seq(|sets|, j requires 0 <= j < |sets| => sets[j].header)
  }

  /** The series shares the x and y descriptions of the reference series. */
  predicate SameDescriptions(s: Series, first: Series) {
    s.xquant.descr == first.xquant.descr && s.yquant.descr == first.yquant.descr
  }

  /** What a selection becomes when one more series is picked. */
  function AddSet(sets: seq<Series>, s: Series): seq<Series> {
    if sets == [] then [s]
    else if s.header in Headers(sets) then sets
    else if SameDescriptions(s, sets[0]) then sets + [s]
    else sets
  }

  /** The series the typed tokens select. */
  function PickSets(xydata: seq<Series>, tokens: seq<string>, toInt: string -> Option<int>): Picked<Series>
    decreases |tokens|
  {
    if tokens == [] then Picked([])
    else match PickSets(xydata, tokens[..|tokens| - 1], toInt)
      case IndexError => IndexError
      case Picked(sets) =>
        match Choose(|xydata|, tokens[|tokens| - 1], toInt)
        case Skip => Picked(sets)
        case Fatal => IndexError
        case At(i) => Picked(AddSet(sets, xydata[i]))
  }

  /** The run fails exactly when some token raises IndexError. */
  lemma {:induction false} PickSetsFails(xydata: seq<Series>, tokens: seq<string>, toInt: string -> Option<int>)
    ensures PickSets(xydata, tokens, toInt).IndexError? <==> AnyFatal(|xydata|, tokens, toInt)
    decreases |tokens|
  {
    if tokens != [] {
      var init := tokens[..|tokens| - 1];
      PickSetsFails(xydata, init, toInt);
      assert init + [tokens[|tokens| - 1]] == tokens;
      AnyFatalSnoc(|xydata|, init, tokens[|tokens| - 1], toInt);
    }
  }

  /** A selection the combined plot can use: headers distinct, descriptions those of the first series. */
  ghost predicate Coherent(sets: seq<Series>) {
    && (forall a, b :: 0 <= a < b < |sets| ==> sets[a].header != sets[b].header)
    && (forall a :: 0 <= a < |sets| ==> SameDescriptions(sets[a], sets[0]))
  }

  /** Adding a series keeps a selection coherent, keeps its first series, and leaves the series' header taken or its descriptions different. */
  lemma AddSetKeeps(sets: seq<Series>, s: Series)
    requires Coherent(sets)
    ensures Coherent(AddSet(sets, s))
    ensures sets != [] ==> AddSet(sets, s)[..|sets|] == sets
    ensures |AddSet(sets, s)| > 0
    ensures s.header in Headers(AddSet(sets, s)) || !SameDescriptions(s, AddSet(sets, s)[0])
  {
    var r := AddSet(sets, s);
    if sets == [] {
      assert Headers(r)[0] == s.header;
    } else if s.header !in Headers(sets) && SameDescriptions(s, sets[0]) {
      assert Headers(r)[|sets|] == s.header;
      forall a | 0 <= a < |sets| ensures sets[a].header != s.header {
        assert Headers(sets)[a] == sets[a].header;
      }
    } else if s.header in Headers(sets) {
      assert Headers(r) == Headers(sets);
    }
  }

  /** One more token keeps the selection so far as a prefix, and keeps it coherent. */
  lemma {:induction false} PickSetsGrows(xydata: seq<Series>, tokens: seq<string>, toInt: string -> Option<int>)
    requires tokens != [] && PickSets(xydata, tokens, toInt).Picked?
    ensures var before := PickSets(xydata, tokens[..|tokens| - 1], toInt);
      before.Picked? && |before.sel| <= |PickSets(xydata, tokens, toInt).sel|
      && PickSets(xydata, tokens, toInt).sel[..|before.sel|] == before.sel
  {
    var before := PickSets(xydata, tokens[..|tokens| - 1], toInt).sel;
    var c := Choose(|xydata|, tokens[|tokens| - 1], toInt);
    if c.At? {
      var s := xydata[c.index];
      var after := AddSet(before, s);
      if before == [] {
        assert after[..0] == before;
      } else if s.header !in Headers(before) && SameDescriptions(s, before[0]) {
        assert after[..|before|] == before;
      }
    }
  }

  /** A selection has distinct headers, and every member shares the descriptions of the first. */
  lemma {:induction false} PickSetsCoherent(xydata: seq<Series>, tokens: seq<string>, toInt: string -> Option<int>)
    requires PickSets(xydata, tokens, toInt).Picked?
    ensures Coherent(PickSets(xydata, tokens, toInt).sel)
    decreases |tokens|
  {
    if tokens != [] {
      var n := |tokens| - 1;
      PickSetsCoherent(xydata, tokens[..n], toInt);
      var c := Choose(|xydata|, tokens[n], toInt);
      if c.At? {
        AddSetKeeps(PickSets(xydata, tokens[..n], toInt).sel, xydata[c.index]);
      }
    }
  }

  /** Every member of a selection is picked by some token. */
  lemma {:induction false} PickSetsSound(xydata: seq<Series>, tokens: seq<string>, toInt: string -> Option<int>)
    requires PickSets(xydata, tokens, toInt).Picked?
    ensures var sets := PickSets(xydata, tokens, toInt).sel;
      forall a :: 0 <= a < |sets| ==> exists t :: 0 <= t < |tokens| && Picks(xydata, tokens[t], toInt, sets[a])
    decreases |tokens|
  {
    if tokens != [] {
      var n := |tokens| - 1;
      var init := tokens[..n];
      PickSetsSound(xydata, init, toInt);
      PickSetsGrows(xydata, tokens, toInt);
      var before := PickSets(xydata, init, toInt).sel;
      var sets := PickSets(xydata, tokens, toInt).sel;
      forall a | 0 <= a < |sets| ensures exists t :: 0 <= t < |tokens| && Picks(xydata, tokens[t], toInt, sets[a]) {
        if a < |before| {
          assert sets[a] == before[a];
          var t :| 0 <= t < |init| && Picks(xydata, init[t], toInt, before[a]);
          assert tokens[t] == init[t];
        } else {
          assert Picks(xydata, tokens[n], toInt, sets[a]);
        }
      }
    }
  }

  /**
   * A token that picks a series leaves the selection non-empty and that series
   * in it by header, or of other descriptions than the first member.
   */
  lemma {:induction false} PickSetsComplete(xydata: seq<Series>, tokens: seq<string>, toInt: string -> Option<int>, t: nat)
    requires PickSets(xydata, tokens, toInt).Picked?
    requires t < |tokens| && Choose(|xydata|, tokens[t], toInt).At?
    ensures var sets := PickSets(xydata, tokens, toInt).sel;
      var s := xydata[Choose(|xydata|, tokens[t], toInt).index];
      sets != [] && (s.header in Headers(sets) || !SameDescriptions(s, sets[0]))
    decreases |tokens|
  {
    var n := |tokens| - 1;
    var init := tokens[..n];
    var s := xydata[Choose(|xydata|, tokens[t], toInt).index];
    var sets := PickSets(xydata, tokens, toInt).sel;
    var before := PickSets(xydata, init, toInt).sel;
    PickSetsCoherent(xydata, init, toInt);
    PickSetsGrows(xydata, tokens, toInt);
    if t < n {
      assert tokens[t] == init[t];
      PickSetsComplete(xydata, init, toInt, t);
      assert sets[0] == before[0];
      if s.header in Headers(before) {
        var j :| 0 <= j < |before| && Headers(before)[j] == s.header;
        assert Headers(sets)[j] == s.header;
      }
    } else {
      AddSetKeeps(before, s);
    }
  }

  /** Is a series with this header already selected? (the `included` loop) */
  method HeaderTaken(sets: seq<Series>, header: string) returns (included: bool)
    ensures included <==> header in Headers(sets)
  {
    included := false;
    for j := 0 to |sets|
      invariant included <==> header in Headers(sets[..j])
    {
      assert Headers(sets[..j + 1]) == Headers(sets[..j]) + [sets[j].header];
      if sets[j].header == header {
        included := true;
        assert Headers(sets)[j] == header;
        break;
      }
    }
    if !included {
      assert sets[..|sets|] == sets;
    }
  }

  /** One answer to the series prompt, token by token. */
  method SelectSets(xydata: seq<Series>, tokens: seq<string>, toInt: string -> Option<int>) returns (r: Picked<Series>)
    ensures r == PickSets(xydata, tokens, toInt)
  {
    var sets: seq<Series> := [];
    var i := 0;
    while i < |tokens|
      invariant 0 <= i <= |tokens|
      invariant PickSets(xydata, tokens[..i], toInt) == Picked(sets)
    {
      assert tokens[..i + 1][..i] == tokens[..i];
      match toInt(tokens[i]) {
        case None =>
        case Some(entry) =>
          if entry <= |xydata| {
            var index := PyIndex(|xydata|, entry);
            if index.None? {
              assert PickSets(xydata, tokens[..i + 1], toInt) == IndexError;
              PickSetsStaysFailed(xydata, tokens, toInt, i + 1);
              return IndexError;
            }
            var s := xydata[index.value];
            if |sets| == 0 {
              sets := sets + [s];
            } else {
              var included := HeaderTaken(sets, s.header);
              if !included {
                if s.xquant.descr == sets[0].xquant.descr && s.yquant.descr == sets[0].yquant.descr {
                  sets := sets + [s];
                }
              }
            }
          }
      }
      i := i + 1;
    }
    assert tokens[..i] == tokens;
    r := Picked(sets);
  }

  /** Once a prefix of the tokens failed, every longer prefix fails. */
  lemma {:induction false} PickSetsStaysFailed(xydata: seq<Series>, tokens: seq<string>, toInt: string -> Option<int>, m: nat)
    requires m <= |tokens| && PickSets(xydata, tokens[..m], toInt).IndexError?
    ensures PickSets(xydata, tokens, toInt).IndexError?
    decreases |tokens| - m
  {
    if m < |tokens| {
      assert tokens[..m + 1][..m] == tokens[..m];
      PickSetsStaysFailed(xydata, tokens, toInt, m + 1);
    } else {
      assert tokens[..m] == tokens;
    }
  }

  // ---------------------------------------------------------------------------
  // The "other combinations" loop

  /** The selections, over the answered rounds, that hold at least two series; `None` once a round fails. */
  function Combinations(xydata: seq<Series>, rounds: seq<seq<string>>, toInt: string -> Option<int>): (r: Option<seq<seq<Series>>>)
    ensures r.Some? ==> forall k :: 0 <= k < |r.value| ==> |r.value[k]| > 1
    decreases |rounds|
  {
    if rounds == [] then Some([])
    else match Combinations(xydata, rounds[..|rounds| - 1], toInt)
      case None => None
      case Some(done) =>
        match PickSets(xydata, rounds[|rounds| - 1], toInt)
        case IndexError => None
        case Picked(sets) => if |sets| > 1 then Some(done + [sets]) else Some(done)
  }

  /**
   * The loop over the rounds the user answers with "y": each selection of at
   * least two series becomes a plot, numbered by `count`.
   */
  method OtherCombinations(xydata: seq<Series>, rounds: seq<seq<string>>, toInt: string -> Option<int>)
    returns (r: Option<seq<(seq<Series>, nat)>>)
    ensures r.Some? <==> Combinations(xydata, rounds, toInt).Some?
    ensures r.Some? ==> |r.value| == |Combinations(xydata, rounds, toInt).value|
    ensures r.Some? ==> forall k :: 0 <= k < |r.value| ==>
      r.value[k] == (Combinations(xydata, rounds, toInt).value[k], k + 1)
  {
    var plots: seq<(seq<Series>, nat)> := [];
    var count := 0;
    var k := 0;
    while k < |rounds|
      invariant 0 <= k <= |rounds|
      invariant Combinations(xydata, rounds[..k], toInt).Some?
      invariant count == |plots| == |Combinations(xydata, rounds[..k], toInt).value|
      invariant forall j :: 0 <= j < |plots| ==> plots[j] == (Combinations(xydata, rounds[..k], toInt).value[j], j + 1)
    {
      assert rounds[..k + 1][..k] == rounds[..k];
      var sets := SelectSets(xydata, rounds[k], toInt);
      if sets.IndexError? {
        CombinationsStaysFailed(xydata, rounds, toInt, k + 1);
        return None;
      }
      if |sets.sel| > 1 {
        count := count + 1;
        plots := plots + [(sets.sel, count)];
      }
      k := k + 1;
    }
    assert rounds[..k] == rounds;
    r := Some(plots);
  }

  /** Once a prefix of the rounds failed, every longer prefix fails. */
  lemma {:induction false} CombinationsStaysFailed(xydata: seq<Series>, rounds: seq<seq<string>>, toInt: string -> Option<int>, m: nat)
    requires m <= |rounds| && Combinations(xydata, rounds[..m], toInt).None?
    ensures Combinations(xydata, rounds, toInt).None?
    decreases |rounds| - m
  {
    if m < |rounds| {
      assert rounds[..m + 1][..m] == rounds[..m];
      CombinationsStaysFailed(xydata, rounds, toInt, m + 1);
    } else {
      assert rounds[..m] == rounds;
    }
  }

  /** The plots of the loop get pairwise different names, whatever their titles. */
  lemma CombinationNamesDistinct(plots: seq<(seq<Series>, nat)>, bases: seq<string>, a: nat, b: nat)
    requires |bases| == |plots| && a < b < |plots|
    requires forall k :: 0 <= k < |plots| ==> plots[k].1 == k + 1
    ensures SetName(bases[a], plots[a].1) != SetName(bases[b], plots[b].1)
  {
    if SetName(bases[a], plots[a].1) == SetName(bases[b], plots[b].1) {
      SetNameCount(bases[a], bases[b], plots[a].1, plots[b].1);
    }
  }
}
