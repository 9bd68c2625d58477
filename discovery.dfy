/**
 * Quantity discovery: the catalog of `Quantity` objects built from the column
 * names of the kept datasets. The first dataset's names are taken as they are,
 * repeats included; every later name either adds one to the count of the first
 * object with that name or appends a fresh object.
 */
module Discovery {
  import opened Common
  import opened Quantities
  import opened Report

  /** The names of the catalog entries, in order. */
  function NamesOf(vs: seq<QuantityValue>): (ns: seq<string>)
    ensures |ns| == |vs| && forall i :: 0 <= i < |vs| ==> ns[i] == vs[i].name
  {
    seq(|vs|, i requires 0 <= i < |vs| => vs[i].name)
  }

  /** Counting on an entry does not change the names. */
  lemma NamesOfCount(vs: seq<QuantityValue>, j: nat, c: nat)
    requires j < |vs|
    ensures NamesOf(vs[j := vs[j].(count := c)]) == NamesOf(vs)
  {
  }

  /** Appending an entry appends its name. */
  lemma NamesOfAppend(vs: seq<QuantityValue>, v: QuantityValue)
    ensures NamesOf(vs + [v]) == NamesOf(vs) + [v.name]
  {
  }

  /** One column name of a later dataset: counted on the first entry of that name, or appended fresh. */
  function AddName(vs: seq<QuantityValue>, name: string): seq<QuantityValue> {
    match Find(NamesOf(vs), name)
    case Some(i) => vs[i := vs[i].(count := vs[i].count + 1)]
    case None => vs + [Fresh(name)]
  }

  /** The column names of a later dataset, in order. */
  function AddNames(vs: seq<QuantityValue>, names: seq<string>): seq<QuantityValue>
    decreases |names|
  {
    if names == [] then vs
    else AddName(AddNames(vs, names[..|names| - 1]), names[|names| - 1])
  }

  /** One dataset: into an empty catalog every name goes as a fresh entry, repeats included. */
  function AddDataset(vs: seq<QuantityValue>, names: seq<string>): seq<QuantityValue> {
    if |vs| == 0 then seq(|names|, k requires 0 <= k < |names| => Fresh(names[k]))
    else AddNames(vs, names)
  }

  /** The catalog after the discovery loop over the given datasets. */
  function Discovered(datasets: seq<Dataset>): seq<QuantityValue>
    decreases |datasets|
  {
    if datasets == [] then []
    else
      var n := |datasets| - 1;
      AddDataset(Discovered(datasets[..n]), datasets[n].quants)
  }

  // ---------------------------------------------------------------------------
  // An independent description of what one later dataset does to the catalog

  /** How often a name occurs in a list of names. */
  function Occurrences(names: seq<string>, n: string): nat
    decreases |names|
  {
    if names == [] then 0
    else Occurrences(names[..|names| - 1], n) + (if names[|names| - 1] == n then 1 else 0)
  }

  /** The names of a list that are not known yet, each once, in the order they first occur. */
  function NewNames(known: seq<string>, names: seq<string>): seq<string>
    decreases |names|
  {
    if names == [] then []
    else
      var p := NewNames(known, names[..|names| - 1]);
      var n := names[|names| - 1];
      if n in known || n in p then p else p + [n]
  }

  /** Old entry `i` after the names: the first entry of a name counts them all, the others stay. */
  function Counted(vs: seq<QuantityValue>, names: seq<string>, i: nat): QuantityValue
    requires i < |vs|
  {
    if Find(NamesOf(vs), vs[i].name) == Some(i) then vs[i].(count := vs[i].count + Occurrences(names, vs[i].name))
    else vs[i]
  }

  /** The entry appended for a new name: no type or description, offset 0, factor 1, one count per occurrence. */
  function NewEntry(names: seq<string>, x: string): QuantityValue {
    Fresh(x).(count := Occurrences(names, x))
  }

  /** A name that is neither known nor new does not occur at all. */
  lemma {:induction false} AbsentNameOccursNever(known: seq<string>, names: seq<string>, n: string)
    requires n !in known && n !in NewNames(known, names)
    ensures Occurrences(names, n) == 0
    decreases |names|
  {
    if names != [] {
      AbsentNameOccursNever(known, names[..|names| - 1], n);
    }
  }

  /** One more name adds one to the occurrences of that name only. */
  lemma OccurrencesSnoc(names: seq<string>, n: string, x: string)
    ensures Occurrences(names + [n], x) == Occurrences(names, x) + (if n == x then 1 else 0)
  {
    assert (names + [n])[..|names|] == names;
  }

  /** A value found nowhere in a concatenation is in neither part. */
  lemma AbsentFromParts<T>(a: seq<T>, b: seq<T>, n: T)
    requires forall k :: 0 <= k < |a + b| ==> (a + b)[k] != n
    ensures n !in a && n !in b
  {
    assert forall k :: 0 <= k < |a| ==> a[k] == (a + b)[k];
    assert forall k :: 0 <= k < |b| ==> b[k] == (a + b)[|a| + k];
  }

  /** The catalog's names after a dataset: the old names, then the new ones. */
  lemma {:induction false} AddNamesNames(vs: seq<QuantityValue>, names: seq<string>)
    ensures NamesOf(AddNames(vs, names)) == NamesOf(vs) + NewNames(NamesOf(vs), names)
    decreases |names|
  {
    if names != [] {
      var init := names[..|names| - 1];
      var n := names[|names| - 1];
      AddNamesNames(vs, init);
      var known := NamesOf(vs);
      var p := NewNames(known, init);
      var w := AddNames(vs, init);
      var r := AddName(w, n);
      assert NamesOf(w) == known + p;
      match Find(NamesOf(w), n)
      case Some(j) =>
        NamesOfCount(w, j, w[j].count + 1);
        if j < |known| {
          assert known[j] == n;
        } else {
          assert p[j - |known|] == n;
        }
      case None =>
        NamesOfAppend(w, Fresh(n));
        AbsentFromParts(known, p, n);
    }
  }

  /** Old entry `i` after a dataset: the first entry of its name counts the name's occurrences, any other stays. */
  lemma {:induction false} OldEntryAt(vs: seq<QuantityValue>, names: seq<string>, i: nat)
    requires i < |vs|
    ensures i < |AddNames(vs, names)| && AddNames(vs, names)[i] == Counted(vs, names, i)
    decreases |names|
  {
    if names != [] {
      var init := names[..|names| - 1];
      var n := names[|names| - 1];
      assert init + [n] == names;
      OldEntryAt(vs, init, i);
      AddNamesNames(vs, init);
      var known := NamesOf(vs);
      var w := AddNames(vs, init);
      assert NamesOf(w)[i] == vs[i].name;
      OccurrencesSnoc(init, n, vs[i].name);
      match Find(NamesOf(w), n)
      case None =>
      case Some(j) =>
        if j == i {
          forall k | 0 <= k < i ensures known[k] != known[i] {
            assert NamesOf(w)[k] == known[k];
          }
          FindFirst(known, i);
        } else if vs[i].name == n {
          assert NamesOf(w)[j] == known[j];
        }
    }
  }

  /** The i-th new name is not a known one. */
  lemma {:induction false} NewNameUnknown(known: seq<string>, names: seq<string>, m: nat)
    requires m < |NewNames(known, names)|
    ensures NewNames(known, names)[m] !in known
    decreases |names|
  {
    var init := names[..|names| - 1];
    if m < |NewNames(known, init)| {
      NewNameUnknown(known, init, m);
    }
  }

  /** No name is new twice. */
  lemma {:induction false} NewNamesDistinct(known: seq<string>, names: seq<string>, a: nat, b: nat)
    requires a < b < |NewNames(known, names)|
    ensures NewNames(known, names)[a] != NewNames(known, names)[b]
    decreases |names|
  {
    var init := names[..|names| - 1];
    if b < |NewNames(known, init)| {
      NewNamesDistinct(known, init, a, b);
    }
  }

  /** New entry `m` after a dataset: the m-th new name, no type or description, offset 0, factor 1, counted once per occurrence. */
  lemma {:induction false} NewEntryAt(vs: seq<QuantityValue>, names: seq<string>, m: nat)
    requires m < |NewNames(NamesOf(vs), names)|
    ensures |vs| + m < |AddNames(vs, names)|
    ensures AddNames(vs, names)[|vs| + m] == NewEntry(names, NewNames(NamesOf(vs), names)[m])
    decreases |names|
  {
    var init := names[..|names| - 1];
    var n := names[|names| - 1];
    assert init + [n] == names;
    var known := NamesOf(vs);
    var p := NewNames(known, init);
    if m < |p| {
      NewEntryAt(vs, init, m);
      AddNamesNames(vs, init);
      NewEntryKept(known, AddNames(vs, init), init, n, m);
    } else {
      AddNamesNames(vs, init);
      assert NewNames(known, names) == p + [n];
      AbsentNameOccursNever(known, init, n);
      OccurrencesSnoc(init, n, n);
    }
  }

  /** A new entry keeps its place when one more name is added, and counts that name if it is its own. */
  lemma NewEntryKept(known: seq<string>, w: seq<QuantityValue>, init: seq<string>, n: string, m: nat)
    requires m < |NewNames(known, init)| && NamesOf(w) == known + NewNames(known, init)
    requires w[|known| + m] == NewEntry(init, NewNames(known, init)[m])
    ensures |known| + m < |AddName(w, n)|
    ensures AddName(w, n)[|known| + m] == NewEntry(init + [n], NewNames(known, init)[m])
  {
    var x := NewNames(known, init)[m];
    OccurrencesSnoc(init, n, x);
    if x == n {
      FirstNewName(known, w, init, m);
      assert AddName(w, n) == w[|known| + m := w[|known| + m].(count := w[|known| + m].count + 1)];
    } else {
      OtherNameKeeps(w, n, |known| + m);
    }
  }

  /** Adding a name leaves an entry of another name as it was. */
  lemma OtherNameKeeps(w: seq<QuantityValue>, n: string, k: nat)
    requires k < |w| && w[k].name != n
    ensures k < |AddName(w, n)| && AddName(w, n)[k] == w[k]
  {
    assert NamesOf(w)[k] != n;
  }

  /** A new name is first found at its own new entry. */
  lemma FirstNewName(known: seq<string>, w: seq<QuantityValue>, init: seq<string>, m: nat)
    requires m < |NewNames(known, init)| && NamesOf(w) == known + NewNames(known, init)
    ensures Find(NamesOf(w), NewNames(known, init)[m]) == Some(|known| + m)
  {
    var p := NewNames(known, init);
    NewNameUnknown(known, init, m);
    forall k | 0 <= k < |known| + m ensures NamesOf(w)[k] != p[m] {
      if k >= |known| {
        NewNamesDistinct(known, init, k - |known|, m);
      }
    }
    FindFirst(NamesOf(w), |known| + m);
  }

  /**
   * What a later dataset does to the catalog: the old entries keep their place and
   * only the first entry of a name counts that name's occurrences; then one entry per
   * new name follows, in first-seen order, counted once per occurrence.
   */
  lemma AddNamesEffect(vs: seq<QuantityValue>, names: seq<string>)
    ensures |AddNames(vs, names)| == |vs| + |NewNames(NamesOf(vs), names)|
    ensures forall i :: 0 <= i < |vs| ==> AddNames(vs, names)[i] == Counted(vs, names, i)
    ensures forall m :: 0 <= m < |NewNames(NamesOf(vs), names)| ==>
      AddNames(vs, names)[|vs| + m] == NewEntry(names, NewNames(NamesOf(vs), names)[m])
  {
    AddNamesNames(vs, names);
    forall i | 0 <= i < |vs| ensures AddNames(vs, names)[i] == Counted(vs, names, i) {
      OldEntryAt(vs, names, i);
    }
    forall m | 0 <= m < |NewNames(NamesOf(vs), names)|
      ensures AddNames(vs, names)[|vs| + m] == NewEntry(names, NewNames(NamesOf(vs), names)[m])
    {
      NewEntryAt(vs, names, m);
    }
  }

  /** The first dataset is taken without removing repeated names: a repeated column gets two entries. */
  lemma FirstDatasetKeepsRepeats(d: Dataset)
    ensures |Discovered([d])| == |d.quants|
    ensures forall k :: 0 <= k < |d.quants| ==> Discovered([d])[k] == Fresh(d.quants[k])
  {
    assert [d][..0] == [];
  }

  /** An unknown name of the list is among the new names. */
  lemma {:induction false} NewNamesComplete(known: seq<string>, names: seq<string>, x: string)
    requires x in names && x !in known
    ensures x in NewNames(known, names)
    decreases |names|
  {
    var init := names[..|names| - 1];
    if x in init {
      NewNamesComplete(known, init, x);
    } else {
      assert names == init + [names[|names| - 1]];
    }
  }

  /** Every new name comes from the list. */
  lemma {:induction false} NewNameFrom(known: seq<string>, names: seq<string>, m: nat)
    requires m < |NewNames(known, names)|
    ensures NewNames(known, names)[m] in names
    decreases |names|
  {
    var init := names[..|names| - 1];
    if m < |NewNames(known, init)| {
      NewNameFrom(known, init, m);
      assert names == init + [names[|names| - 1]];
    }
  }

  /** Some dataset has a column of this name. */
  ghost predicate IsColumn(datasets: seq<Dataset>, x: string) {
    exists d :: 0 <= d < |datasets| && x in datasets[d].quants
  }

  /** A column name of any dataset has a catalog entry. */
  lemma {:induction false} ColumnHasEntry(datasets: seq<Dataset>, d: nat, k: nat)
    requires d < |datasets| && k < |datasets[d].quants|
    ensures datasets[d].quants[k] in NamesOf(Discovered(datasets))
    decreases |datasets|
  {
    var n := |datasets| - 1;
    var init := datasets[..n];
    var vs := Discovered(init);
    var names := datasets[n].quants;
    var x := datasets[d].quants[k];
    if d < n {
      ColumnHasEntry(init, d, k);
      AddNamesNames(vs, names);
    } else if |vs| == 0 {
      assert NamesOf(Discovered(datasets))[k] == x;
    } else {
      AddNamesNames(vs, names);
      if x !in NamesOf(vs) {
        NewNamesComplete(NamesOf(vs), names, x);
      }
    }
  }

  /** Every catalog entry is named after a column of some dataset. */
  lemma {:induction false} EntryFromColumn(datasets: seq<Dataset>, i: nat)
    requires i < |Discovered(datasets)|
    ensures IsColumn(datasets, Discovered(datasets)[i].name)
    decreases |datasets|
  {
    var n := |datasets| - 1;
    var init := datasets[..n];
    var vs := Discovered(init);
    var names := datasets[n].quants;
    var r := Discovered(datasets);
    if |vs| == 0 {
      assert r[i].name == names[i];
    } else {
      AddNamesNames(vs, names);
      assert r[i].name == NamesOf(r)[i];
      if i < |vs| {
        EntryFromColumn(init, i);
        var d :| 0 <= d < n && vs[i].name in init[d].quants;
        assert init[d] == datasets[d];
      } else {
        NewNameFrom(NamesOf(vs), names, i - |vs|);
      }
    }
  }

  /** Every column name of every dataset has a catalog entry, and every entry is some dataset's column. */
  lemma DiscoveredNames(datasets: seq<Dataset>)
    ensures forall d, k :: 0 <= d < |datasets| && 0 <= k < |datasets[d].quants| ==> datasets[d].quants[k] in NamesOf(Discovered(datasets))
    ensures forall i :: 0 <= i < |Discovered(datasets)| ==> IsColumn(datasets, Discovered(datasets)[i].name)
  {
    forall d, k | 0 <= d < |datasets| && 0 <= k < |datasets[d].quants|
      ensures datasets[d].quants[k] in NamesOf(Discovered(datasets))
    {
      ColumnHasEntry(datasets, d, k);
    }
    forall i | 0 <= i < |Discovered(datasets)|
      ensures IsColumn(datasets, Discovered(datasets)[i].name)
    {
      EntryFromColumn(datasets, i);
    }
  }

  /**
   * The program stops for lack of quantities exactly when no report file gave a
   * dataset: every kept dataset has at least one column name.
   */
  lemma NoQuantitiesIffNoDatasets(files: seq<string>, contents: seq<seq<string>>)
    requires |files| == |contents|
    ensures Discovered(KeptDatasets(files, contents)) == [] <==> KeptDatasets(files, contents) == []
  {
    var datasets := KeptDatasets(files, contents);
    if datasets != [] {
      DiscoveredNames(datasets);
      assert datasets[0].quants[0] in NamesOf(Discovered(datasets));
    }
  }

  /** The first dataset's names, each as a new object. */
  method AddFirst(quants: seq<string>) returns (quantities: seq<Quantity>)
    ensures Distinct(quantities)
    ensures forall q :: q in quantities ==> fresh(q)
    ensures Values(quantities) == AddDataset([], quants)
  {
    quantities := [];
    var k := 0;
    while k < |quants|
      invariant 0 <= k <= |quants| && |quantities| == k
      invariant Distinct(quantities)
      invariant forall q :: q in quantities ==> fresh(q)
      invariant Values(quantities) == seq(k, i requires 0 <= i < k => Fresh(quants[i]))
    {
      var q := new Quantity(quants[k], None, None, 0.0, 1.0);
      quantities := quantities + [q];
      k := k + 1;
    }
  }

  /** `addcount` on object `j` of the list: only its count changes. */
  method CountOn(quantities: seq<Quantity>, j: nat)
    requires j < |quantities| && Distinct(quantities)
    modifies quantities[j]
    ensures Values(quantities) == old(Values(quantities))[j := old(Values(quantities))[j].(count := old(quantities[j].count) + 1)]
  {
    ghost var before := Values(quantities);
    quantities[j].AddCount();
    forall m | 0 <= m < |quantities| && m != j ensures Values(quantities)[m] == before[m] {
      assert quantities[m] != quantities[j];
    }
  }

  /** One name of a later dataset: `addcount` on the first object with that name, or a new object. */
  method AddLater(quantities: seq<Quantity>, quant: string) returns (result: seq<Quantity>)
    requires Distinct(quantities)
    modifies set q | q in quantities
    ensures Distinct(result)
    ensures forall q :: q in result ==> q in quantities || fresh(q)
    ensures Values(result) == AddName(old(Values(quantities)), quant)
  {
    ghost var before := Values(quantities);
    var j := 0;
    while j < |quantities|
      invariant 0 <= j <= |quantities|
      invariant forall m :: 0 <= m < j ==> NamesOf(before)[m] != quant
      invariant Values(quantities) == before
    {
      if quant == quantities[j].name {
        assert Find(NamesOf(before), quant) == Some(j);
        CountOn(quantities, j);
        return quantities;
      }
      j := j + 1;
    }
    var q := new Quantity(quant, None, None, 0.0, 1.0);
    result := quantities + [q];
    assert Values(result) == before + [Fresh(quant)];
  }

  /**
   * The discovery loop over the datasets. The catalog's objects are new and
   * pairwise different, and their states are the value-level catalog.
   */
  method Discover(datasets: seq<Dataset>) returns (quantities: seq<Quantity>)
    ensures Distinct(quantities)
    ensures forall q :: q in quantities ==> fresh(q)
    ensures Values(quantities) == Discovered(datasets)
  {
    quantities := [];
    var d := 0;
    while d < |datasets|
      invariant 0 <= d <= |datasets|
      invariant Distinct(quantities)
      invariant forall q :: q in quantities ==> fresh(q)
      invariant Values(quantities) == Discovered(datasets[..d])
    {
      assert datasets[..d + 1][..d] == datasets[..d];
      var quants := datasets[d].quants;
      if |quantities| == 0 {
        quantities := AddFirst(quants);
      } else {
        ghost var start := Values(quantities);
        var k := 0;
        while k < |quants|
          invariant 0 <= k <= |quants|
          invariant Distinct(quantities)
          invariant forall q :: q in quantities ==> fresh(q)
          invariant Values(quantities) == AddNames(start, quants[..k])
        {
          assert quants[..k + 1][..k] == quants[..k];
          quantities := AddLater(quantities, quants[k]);
          k := k + 1;
        }
        assert quants[..k] == quants;
      }
      d := d + 1;
    }
    assert datasets[..d] == datasets;
  }
}
