# A verified model of `out-file-to-data.py`

`out-file-to-data.py` is an interactive tool for Ansys Fluent report (`.out`) files.

1. It reads one or more report files. Each file has a header line of quoted quantity names starting with `(`, and then rows of whitespace-separated numbers.
2. It builds a catalog of the quantities it finds, counting the files each appears in.
3. It reconciles that catalog with a reference file of saved settings. Each record there has five `?`-separated fields: name, type, description, offset and scaling factor.
4. It asks for the type ("none", "xdata" or "ydata"), description, offset and factor of every quantity still untyped, and saves or updates its record.
5. It refuses to go on without at least one x and one y quantity.
6. It derives one series per (x, y) quantity pair of every dataset, with every sample scaled as `factor * (raw + offset)`.
7. It writes the series to text files, in Maple or delimited layout.
8. It sorts the series into groups of the same x and y quantity, computes axis ranges, and builds the titles, file names and legends of individual and combined plots. The user may also pick other combinations of series by number.

This project models that logic in Dafny and proves what the script promises about it. Each stage is a module:

| file | module | models |
|---|---|---|
| `common.dfy` | `Common` | `Option`, the two axes, first-index search |
| `text.dfy` | `Text` | the Python string operations the script uses: `split`, `strip`, `startswith`, `replace`, `[1::2]`, `str(int)`, `re.sub(r"-\[.*?\]", "", s)` |
| `numbers.dfy` | `Numbers` | `float()` and `str(float)` as given functions |
| `quantity.dfy` | `Quantities` | the `Quantity` class with its setters, `getref` and the reference-file loader |
| `report.dfy` | `Report` | `getquants`, `getdata`, the dataset keep rule |
| `discovery.dfy` | `Discovery` | the discovery loop building the catalog |
| `catalog.dfy` | `Catalog` | reconciliation, manual classification, reference write-back, the x/y gate |
| `grid.dfy` | `Grids` | the shape of the deriver's nested loops, whatever one pass makes |
| `derive.dfy` | `Derive` | the `XYdata` series and the deriver |
| `group.dfy` | `Grouping` | sorting the series by quantities; `multisets`/`enoughsets` |
| `ranges.dfy` | `Ranges` | `getminmax` and `setminmax` |
| `export.dfy` | `Export` | the two file layouts |
| `plot.dfy` | `Plots` | plot titles, file names, legends, combined data lists |
| `selection.dfy` | `Selection` | the file-number and series-number prompts and the "other combinations" loop |

Where the script changes objects step by step, the model does too.

- `Quantity` is a class whose setters modify its fields. The catalog is a sequence of such objects.
- The discovery, reconciliation and classification loops are methods over those objects. Each is proved against a function on the objects' values.
- The loops of `getquants`, `getdata`, the deriver, the grouper, `getminmax`, the prompts and the file writer are methods with loop invariants. Each is proved equal to a specification function.
- Lemmas prove the promised properties about those specification functions.

## Behaviour modelled as the code has it

The model follows the code in each of these places, where its behaviour may be unexpected:

- **`getdata` without a header line.** It returns the tokens of every line but the first (`Report.NoHeader`), not nothing. The dataset is still dropped because it has no column names.
- **Reference update.** It replaces the first line that *starts with* the quantity name (line 688), not the record whose name field equals it. `Catalog.PrefixMatchHitsLongerName` shows the record of "cd-1" being overwritten when "cd" is updated.
- **Update question.** The script asks it after every manual classification of a quantity that has a record. It does not check whether the settings changed.
- **Reference load.** Only the field count is checked (line 583). A five-field record with an offset or factor that `float()` cannot read stops the program (`Quantities.LoadFailsOnBadNumber`); it is not skipped.
- **Factor prompt.** It is never asked again: because of the `break` at line 141, an invalid answer leaves the factor as it was (`Catalog.RejectedFactorKept`).
- **First dataset.** Its names are taken without removing repeats (`Discovery.FirstDatasetKeepsRepeats`).
- **Per-dataset quantity lists.** They follow the dataset's column order, and a repeated column repeats its quantity (`Derive.RepeatedColumnRepeats`).
- **Sample values.** Each is read from the *first* column of the quantity's name.
- **Reconciliation.** Only the first reference of a name is offered.
- **Write-back.** It happens only for quantities still untyped after reconciliation.
- **Selection.** A number is only checked against the upper bound, `entry <= len`. As in Python, 0 and negative numbers index from the end, and a number below `1 - len` raises IndexError, which ends the program (`Selection.PyIndex`).

## Model

Paths are relative to the repository root.

| member | source | states |
|---|---|---|
| `Report.HeaderIndex` | out-file-to-data.py:79-81 | the index of the first line starting with "(": every earlier line does not start with it; `None` only when no line does |
| `Report.GetQuants` | out-file-to-data.py:73-86 | `getquants` returns the odd-indexed pieces of the first "(" line split on '"', and nothing for an empty file or a file without such a line |
| `Report.GetData` | out-file-to-data.py:90-106 | `getdata` returns the whitespace tokens of every line after the header line, and of every line but the first when there is no header line |
| `Report.ColumnsOfHeaderLine` | out-file-to-data.py:83 | a header line written in Fluent's quoted form gives back exactly the column names it quotes |
| `Report.NoHeader` | out-file-to-data.py:94-100 | without a "(" line there are no column names, while the rows are the tokens of lines[1:] |
| `Report.KeptDatasets` | out-file-to-data.py:512-514 | every kept dataset has a non-empty column list and non-empty rows; no more datasets than files |
| `Report.CollectDatasets` | out-file-to-data.py:505-519 | the file loop appends a dataset exactly for the files whose names and rows are both non-empty, in file order |
| `Quantities.Quantity.constructor` | out-file-to-data.py:282-288 | a new quantity has the given fields and count 1 |
| `Quantities.Quantity.AddCount` | out-file-to-data.py:316-317 | `addcount` raises the count by one and changes nothing else |
| `Quantities.Quantity.SetType` | out-file-to-data.py:318-319 | `settype` sets the type and changes nothing else |
| `Quantities.Quantity.SetDescr` | out-file-to-data.py:320-321 | `setdescr` sets the description and changes nothing else |
| `Quantities.Quantity.SetOffset` | out-file-to-data.py:322-323 | `setoffset` sets the offset and changes nothing else |
| `Quantities.Quantity.SetFactor` | out-file-to-data.py:324-325 | `setfactor` sets the factor and changes nothing else |
| `Quantities.RefLine` | out-file-to-data.py:307-313 | `getref` joins the five fields with `?` and starts with the quantity name |
| `Quantities.RefLineFields` | out-file-to-data.py:579-584 | a line written by `getref` with no `?` in its text fields splits on `?` into exactly its five fields |
| `Quantities.RefLineRoundTrip` | out-file-to-data.py:579-584 | a line written by `getref` with no `?` in its text fields and a float offset and factor is loaded back as the same record |
| `Quantities.LoadFailsOnBadNumber` | out-file-to-data.py:583-584 | loading the reference file fails exactly when some five-field line holds an offset or factor `float()` cannot read (the source crashes there, 287-288) |
| `Quantities.LoadedRefsFromLines` | out-file-to-data.py:579-584 | every loaded reference is the record of some line that has exactly five `?`-separated fields |
| `Quantities.LoadedRefsFloats` | out-file-to-data.py:287-288 | the offset and factor of every loaded reference are floats, being what `float()` returned |
| `Quantities.AppendedRefLoads` | out-file-to-data.py:662 | a `getref` line of a quantity with float settings, appended to the file, is loaded back after the records already there |
| `Quantities.LoadReferences` | out-file-to-data.py:575-587 | the load loop over the lines of the file computes the reference list (or the crash) |
| `Quantities.FirstRef` | out-file-to-data.py:595-596 | the index of the first reference with the quantity's name; `None` exactly when no reference has it |
| `Discovery.AddNamesNames` | out-file-to-data.py:544-556 | after a later dataset, the catalog's names are the old names followed by the dataset's unknown names, each once, in first-seen order |
| `Discovery.OldEntryAt` | out-file-to-data.py:547-552 | an old entry keeps its place; only the first entry of a name collects that name's occurrences in its count |
| `Discovery.NewNameUnknown` | out-file-to-data.py:554-556 | a name appended by a later dataset was not in the catalog before |
| `Discovery.NewNamesDistinct` | out-file-to-data.py:554-556 | a later dataset appends no name twice |
| `Discovery.NewEntryAt` | out-file-to-data.py:555-556 | an appended entry has no type or description, offset 0.0, factor 1.0, and one count per occurrence of its name in the dataset |
| `Discovery.AddNamesEffect` | out-file-to-data.py:542-556 | a later dataset keeps the old entries in place, counts on the first entry of each known name, and appends one fresh entry per new name |
| `Discovery.FirstDatasetKeepsRepeats` | out-file-to-data.py:538-540 | the first dataset's names all become fresh entries, repeated names included |
| `Discovery.NewNamesComplete` | out-file-to-data.py:554-556 | every unknown name of a later dataset is appended |
| `Discovery.NewNameFrom` | out-file-to-data.py:554-556 | every appended name is a column name of the dataset |
| `Discovery.ColumnHasEntry` | out-file-to-data.py:534-556 | every column name of every dataset has a catalog entry |
| `Discovery.EntryFromColumn` | out-file-to-data.py:534-556 | every catalog entry is named after a column of some dataset |
| `Discovery.DiscoveredNames` | out-file-to-data.py:534-556 | the catalog's names are exactly the column names of the datasets |
| `Discovery.NoQuantitiesIffNoDatasets` | out-file-to-data.py:559-562 | the program stops for lack of quantities exactly when no file gave a dataset |
| `Discovery.AddFirst` | out-file-to-data.py:538-540 | the first dataset's loop makes one new, distinct object per name |
| `Discovery.CountOn` | out-file-to-data.py:550 | `addcount` on one object of the catalog changes only that entry's count |
| `Discovery.AddLater` | out-file-to-data.py:544-556 | one name of a later dataset counts on the first object of that name or appends a new object |
| `Discovery.Discover` | out-file-to-data.py:534-556 | the discovery loop builds distinct new objects whose states are the value-level catalog |
| `Catalog.ReconcileOne` | out-file-to-data.py:594-613 | the reference question never changes a quantity's name or count |
| `Catalog.ReconcileCopiesFirst` | out-file-to-data.py:608-613 | accepting copies type, description, offset and factor of the first reference of the name; declining changes nothing |
| `Catalog.ReconcileWithoutRecord` | out-file-to-data.py:595-596 | a quantity without a reference of its name is left as it was |
| `Catalog.ReconcileIdempotent` | out-file-to-data.py:593-613 | asking again with the same answer changes nothing more |
| `Catalog.ReconcileQuantity` | out-file-to-data.py:595-613 | the inner loop over the references leaves the quantity as the first matching record decides |
| `Catalog.ReconcileKeepsFloats` | out-file-to-data.py:608-612 | a quantity with float settings stays so when its settings are copied from a reference with float settings |
| `Catalog.Reconcile` | out-file-to-data.py:593-613 | every quantity ends as its own answer decides, and no other quantity changes |
| `Catalog.Lower` | out-file-to-data.py:620 | `.lower()` keeps the length of the answer |
| `Catalog.LowerIsWord` | out-file-to-data.py:620 | for a lower-case word w, `answer.lower() == w` exactly when the answer spells w letter by letter in either ASCII case |
| `Catalog.ReadKindIgnoresCase` | out-file-to-data.py:620-640 | the type prompt reads "none"/"n", "xdata"/"x" and "ydata"/"y" spelt in any case as their own kind, and no other answer as that kind |
| `Catalog.ClassifyOne` | out-file-to-data.py:617-640 | an untyped quantity gets a type and a description; a typed one is left as it is; name and count never change |
| `Catalog.ClassifiedTypes` | out-file-to-data.py:622-638 | a classified quantity is typed "none", "xdata" or "ydata"; "none" exactly for the answers "none"/"n", and then with description "none", offset 0.0 and factor 0.0 |
| `Catalog.ClassifiedSettings` | out-file-to-data.py:117-141 | a plotted quantity gets the axis type, the typed description, the typed offset or 0.0 when blank, and the typed factor, 1.0 when blank, or the old factor otherwise |
| `Catalog.ClassifiedFloats` | out-file-to-data.py:117-141 | classification leaves offset and factor floats: each is what `float()` returned, a default, or unchanged |
| `Catalog.RejectedFactorKept` | out-file-to-data.py:130-141 | an invalid factor answer is not asked again: the factor stays what it was |
| `Catalog.SetQuantities` | out-file-to-data.py:110-141 | `setquantities` sets type, description, offset and factor as the answers say |
| `Catalog.ClassifyQuantity` | out-file-to-data.py:619-640 | the type prompt and the setters leave the quantity classified as its answers say |
| `Catalog.AppendText` | out-file-to-data.py:659-671 | appending keeps every line but the last and adds at most one line |
| `Catalog.AppendKeepsLines` | out-file-to-data.py:661-662 | appending a whole line keeps the file in line form |
| `Catalog.AppendedRecordLoads` | out-file-to-data.py:653-671 | a saved new record with float settings is loaded back after the records already in the file |
| `Catalog.FirstPrefixed` | out-file-to-data.py:687-690 | the index of the first line that starts with the name; `None` exactly when none does |
| `Catalog.ReplaceFirst` | out-file-to-data.py:687-690 | the update keeps the number of lines |
| `Catalog.ReplaceFirstAt` | out-file-to-data.py:687-690 | the update replaces the first line starting with the name and no other line |
| `Catalog.ReplaceFirstAbsent` | out-file-to-data.py:687-690 | without a line starting with the name, the file is written back unchanged |
| `Catalog.ReplaceFirstIdempotent` | out-file-to-data.py:687-690 | updating twice with the same line is updating once |
| `Catalog.ReplaceKeepsLines` | out-file-to-data.py:687-695 | replacing a line by a whole line keeps the file in line form |
| `Catalog.PrefixMatchHitsLongerName` | out-file-to-data.py:688 | updating "cd" overwrites a preceding record of "cd-1" and leaves the record of "cd" as it was |
| `Catalog.UpdateLines` | out-file-to-data.py:686-690 | the find-and-replace loop computes the update of the first line starting with the name |
| `Catalog.WriteBackKeepsLines` | out-file-to-data.py:643-698 | saving a record keeps the reference file in line form |
| `Catalog.HasRecord` | out-file-to-data.py:646-650 | the `refmatch` loop is true exactly when a reference of the name was loaded |
| `Catalog.SaveSettings` | out-file-to-data.py:643-698 | a saved record is appended when no loaded reference has its name, updated in place otherwise, and left out when the user declines |
| `Catalog.StoreAfterStep` | out-file-to-data.py:617-698 | a typed quantity leaves the reference file as it is; an untyped one writes back its classified record as answered |
| `Catalog.StoreAfterKeepsLines` | out-file-to-data.py:617-698 | the whole classification loop keeps the reference file in line form |
| `Catalog.HandleQuantity` | out-file-to-data.py:618-698 | one pass classifies an untyped quantity and saves its record; a typed quantity and the file are left alone |
| `Catalog.ClassifyRemaining` | out-file-to-data.py:617-698 | every quantity ends as its answers decide, and the reference file is the result of the saves in catalog order |
| `Catalog.CheckGate` | out-file-to-data.py:702-714 | the program goes on exactly when some quantity is typed "xdata" and some quantity is typed "ydata" |
| `Derive.MatchingSound` | out-file-to-data.py:747-756 | the quantities a column yields are catalog entries of that name and type |
| `Derive.AxisQuantsSound` | out-file-to-data.py:744-756 | a dataset's x (y) quantities are catalog entries typed "xdata" ("ydata") and named after one of its columns |
| `Derive.MatchingComplete` | out-file-to-data.py:747-756 | every catalog entry of the name and type is yielded |
| `Derive.AxisQuantsComplete` | out-file-to-data.py:744-756 | every catalog entry of the type named after a column is among the dataset's quantities of that type |
| `Derive.RepeatedColumnRepeats` | out-file-to-data.py:745-756 | after any columns, a column name given twice contributes the matching catalog entries twice, in catalog order, for any catalog and axis |
| `Derive.MatchColumn` | out-file-to-data.py:747-756 | the inner loop over the catalog appends every entry of the column's name to its axis list |
| `Derive.SplitAxes` | out-file-to-data.py:740-756 | the loops build the x and y quantity lists column by column |
| `Derive.ColumnOfValues` | out-file-to-data.py:781-783 | a column read in full has one sample per row, `factor * (float(raw) + offset)` of the row's entry |
| `Derive.ColumnOfFails` | out-file-to-data.py:781-783 | a column fails only when some row is too short or holds no number at the index |
| `Derive.ReadColumn` | out-file-to-data.py:780-784 | the loop over the rows reads the column sample by sample |
| `Derive.ExtractColumn` | out-file-to-data.py:776-793 | the loops find the first column of the quantity's name and read it |
| `Derive.SeriesCount` | out-file-to-data.py:760-810 | a dataset without x or y quantities yields no series; otherwise it yields as many series as x quantities times y quantities |
| `Derive.SeriesAt` | out-file-to-data.py:773-805 | series k is the series of grid pair k under header number k + 1 |
| `Derive.SeriesOrder` | out-file-to-data.py:773-805 | series a * len(yquants) + b pairs x quantity a with y quantity b (x-major), headed by the dataset name for a single pair and name-(k+1) otherwise |
| `Derive.SeriesSamples` | out-file-to-data.py:776-793 | each series has one sample per row on both axes, read from the first column of its quantity's name and scaled |
| `Derive.KeptSeriesLengths` | out-file-to-data.py:512-514 | every series derived from the kept datasets has at least one sample and as many y samples as x samples |
| `Derive.SeriesGap` | out-file-to-data.py:776-793 | a pair whose column cannot be read leaves the dataset without series (the source raises) |
| `Derive.SeriesMissing` | out-file-to-data.py:776-793 | a dataset without series has such an unreadable pair |
| `Derive.DerivePair` | out-file-to-data.py:776-802 | one pass builds the series of the pair from its two columns |
| `Derive.DerivePass` | out-file-to-data.py:776-805 | one pass of the inner loop builds the series under header number `datacount` |
| `Derive.DeriveRow` | out-file-to-data.py:775-805 | the inner loop builds the series of one x quantity, numbered on |
| `Derive.DeriveDataset` | out-file-to-data.py:760-810 | the nested loops build the series of one dataset |
| `Derive.DeriveGrid` | out-file-to-data.py:773-805 | the loops over the x and y quantities build the passes over the grid, in grid order |
| `Derive.AllSeriesFromDatasets` | out-file-to-data.py:735-810 | every series comes from some dataset: its header starts with the dataset name and both quantities are its columns |
| `Derive.SeriesOfDataset` | out-file-to-data.py:773-805 | every series of a dataset is named after it and pairs an x and a y quantity of its columns |
| `Derive.LabelStarts` | out-file-to-data.py:796-799 | a series header starts with the dataset name |
| `Derive.DeriveAll` | out-file-to-data.py:735-810 | the loop over the datasets collects all series in dataset order |
| `Grids.GridSize` | out-file-to-data.py:773-775 | the nested loops visit as many pairs as x entries times y entries |
| `Grids.GridAt` | out-file-to-data.py:773-775 | position a * len(ys) + b pairs x entry a with y entry b |
| `Grids.GridMember` | out-file-to-data.py:773-775 | every visited pair is made of an x entry and a y entry |
| `Grids.GridAttemptsAt` | out-file-to-data.py:773-805 | pass k of the nested loops handles the grid pair at position k under number k + 1 |
| `Grids.GridAttemptsFlat` | out-file-to-data.py:773-805 | the nested loops make exactly the passes over the grid, in grid order |
| `Grids.AllSomeMissing` | out-file-to-data.py:773-805 | the loops yield no values only when some pass yields nothing |
| `Grids.AllSomeValues` | out-file-to-data.py:801-802 | collected values are those of the passes, one for one |
| `Grids.ConcatFrom` | out-file-to-data.py:735-805 | every collected series is value j of dataset i |
| `Grouping.Grouping` | out-file-to-data.py:919-950 | there is one group per distinct key of the input |
| `Grouping.KeysDistinct` | out-file-to-data.py:933-950 | no two groups have the same (x name, y name) |
| `Grouping.KeysComplete` | out-file-to-data.py:933-950 | a key gets a group exactly when some series has it |
| `Grouping.KeysFirstSeen` | out-file-to-data.py:922-950 | groups appear in the order their first series appears |
| `Grouping.MembersKey` | out-file-to-data.py:942-944 | every member of a group has the group's key |
| `Grouping.MembersIndices` | out-file-to-data.py:922-950 | a group's members are the series with its key, in input order, all of them |
| `Grouping.GroupKeys` | out-file-to-data.py:936-946 | every group is non-empty and all its members have its key |
| `Grouping.GroupOf` | out-file-to-data.py:922-950 | every series lands in exactly one group |
| `Grouping.GroupingSnoc` | out-file-to-data.py:922-950 | a series joins the group of its key, or opens a new group at the end |
| `Grouping.GroupingPartition` | out-file-to-data.py:919-950 | the groups together hold every series exactly as often as the input does |
| `Grouping.Group` | out-file-to-data.py:919-950 | the sorting loop computes the grouping |
| `Grouping.MultiSets` | out-file-to-data.py:953-964 | `multisets` (and `enoughsets`, 1129-1132) is true exactly when some group has at least two members |
| `Grouping.MultipleIffShared` | out-file-to-data.py:953-964 | some group has several members exactly when two series share their x and y names |
| `Ranges.SeqMin` | out-file-to-data.py:154 | `np.min` is a value of the list and at most every value |
| `Ranges.SeqMax` | out-file-to-data.py:155 | `np.max` is a value of the list and at least every value |
| `Ranges.KeptSeriesPlottable` | out-file-to-data.py:145-168 | any list of derived series has values on the axis, so `np.min` and `np.max` do not raise |
| `Ranges.GetMinMax` | out-file-to-data.py:145-168 | `getminmax` returns a lower and an upper bound of every value on the axis of every series, both attained, min <= max |
| `Ranges.Prompt` | out-file-to-data.py:175-198 | a value prompt ends after the answer that decides it |
| `Ranges.Settle` | out-file-to-data.py:172-204 | `setminmax` returns only a range whose minimum is below its maximum |
| `Ranges.PromptValue` | out-file-to-data.py:175-198 | a prompt gives its default or the number of one of the answers |
| `Ranges.SettleValues` | out-file-to-data.py:172-204 | the range's bounds are the defaults or numbers the user typed |
| `Ranges.SettleKeepsDefaults` | out-file-to-data.py:183-197 | two blank answers keep a range whose minimum is below its maximum |
| `Ranges.ReadValue` | out-file-to-data.py:175-186 | the loop of one prompt reads the value the prompt gives |
| `Ranges.SetMinMax` | out-file-to-data.py:172-204 | the prompt loop returns the settled range, whose minimum is below its maximum |
| `Export.MapleDataLine` | out-file-to-data.py:845-848 | the loop builds `[[x1,y1],...,[xn,yn]]` and a newline |
| `Export.MapleFields` | out-file-to-data.py:845-848 | the comma-separated pieces between the outer brackets are "[x" and "y]" for every sample, in order |
| `Export.MapleReadBack` | out-file-to-data.py:845-848 | the pieces between the commas parse back to the samples when the samples are floats |
| `Export.SampleLines` | out-file-to-data.py:890-891 | one line per x value |
| `Export.WriteSamples` | out-file-to-data.py:890-891 | the loop writes one `x<delim>y` line per sample |
| `Export.FieldsLineReadBack` | out-file-to-data.py:883-891 | a two-field line split on its delimiter gives back its fields |
| `Export.SampleLineFields` | out-file-to-data.py:890-891 | with a delimiter no numeral holds, each sample line splits into the texts of its two samples |
| `Export.SampleLineReadBack` | out-file-to-data.py:890-891 | those two texts parse back to the samples when the samples are floats |
| `Export.SeriesFile` | out-file-to-data.py:833-891 | the file is named header + ".txt" and has 3 lines (Maple) or 2 + n lines (delimited) |
| `Export.DelimitedHeaderReadBack` | out-file-to-data.py:883-884 | the two header lines split back into the quantity names and the descriptions |
| `Export.WriteSeries` | out-file-to-data.py:833-891 | the lines of one series' file in the chosen layout |
| `Export.KeptSeriesWritable` | out-file-to-data.py:845-891 | every derived series has a first x value and no fewer y values than x values, as the writers need |
| `Export.WriteAll` | out-file-to-data.py:833-901 | the file loop writes one file per series, in series order |
| `Plots.IndividualPlotName` | out-file-to-data.py:1046-1060 | an untitled plot is named after its header; under the automatic title the name is the header with spaces turned into '-'; a typed title gives the dashed header unless it is blank |
| `Plots.IndividualName` | out-file-to-data.py:1056-1060 | the header itself without a title, otherwise the header with each space replaced by '-' and nothing else changed |
| `Plots.CombinedPlotName` | out-file-to-data.py:1216-1233 | no title, the automatic title and a blank typed title all give the untitled plot's name; a typed title gives its dashed text without tags |
| `Plots.CombinedName` | out-file-to-data.py:1226-1233 | a combined plot's file name holds no space |
| `Plots.CombinedNameUntagged` | out-file-to-data.py:1226-1233 | without a `-[...]` tag the name is the dashed title |
| `Plots.StripTagsTrailingUnit` | out-file-to-data.py:1230 | a trailing `-[unit]` is removed with its dash |
| `Plots.ComparisonNameDropsUnit` | out-file-to-data.py:1227-1230 | the automatic name of "Static Pressure [Pa]" drops the unit: "Comparison-of-Static-Pressure" |
| `Plots.SetNameCount` | out-file-to-data.py:1360-1364 | two names with the `-set<count>` suffix are equal only for the same count |
| `Plots.Legend` | out-file-to-data.py:1214 | a legend entry is no longer than the header |
| `Plots.LegendUnchanged` | out-file-to-data.py:1214 | a header that does not mention the y name is its own legend entry |
| `Plots.LegendOfSuffixed` | out-file-to-data.py:1214 | a header "<base>-<y name>" has the base as its legend entry |
| `Plots.CombinedSeries` | out-file-to-data.py:1205-1214 | the plot's data lists are the series' x and y data and its legend the stripped headers, series by series |
| `Selection.PyIndex` | out-file-to-data.py:470-473 | `items[entry - 1]` for `entry <= len` reads from the end for 0 and negative entries, and fails only below 1 - len |
| `Selection.Choose` | out-file-to-data.py:465-494 | a position a token picks lies inside the list (tokens `int()` rejects or above the length are skipped, those below the list are fatal) |
| `Selection.PickFilesFails` | out-file-to-data.py:465-494 | the file selection fails exactly when some token raises IndexError |
| `Selection.PickFilesContents` | out-file-to-data.py:465-487 | the selection lists no file twice, only files some token picks, and every file some token picks |
| `Selection.Included` | out-file-to-data.py:477-483 | the `included` loop is true exactly when the file is already selected |
| `Selection.SelectFiles` | out-file-to-data.py:459-494 | the token loop computes the file selection |
| `Selection.FirstSelection` | out-file-to-data.py:457-497 | the prompt is asked again until an answer selects some file, so an answered prompt gives a non-empty selection |
| `Selection.ChooseFiles` | out-file-to-data.py:449-497 | all files when the user says so, otherwise the first non-empty selection |
| `Selection.Headers` | out-file-to-data.py:1276-1277 | one header per selected series |
| `Selection.PickSetsFails` | out-file-to-data.py:1258-1299 | the series selection fails exactly when some token raises IndexError |
| `Selection.AddSetKeeps` | out-file-to-data.py:1264-1291 | adding a series keeps the selection coherent and its first series |
| `Selection.PickSetsGrows` | out-file-to-data.py:1258-1291 | one more token keeps the selection so far as a prefix |
| `Selection.PickSetsCoherent` | out-file-to-data.py:1258-1291 | the selection has distinct headers and every member shares the x and y descriptions of the first |
| `Selection.PickSetsSound` | out-file-to-data.py:1258-1291 | every selected series is picked by some token |
| `Selection.PickSetsComplete` | out-file-to-data.py:1258-1291 | a picked series is in the selection by header, or has other descriptions than the first |
| `Selection.HeaderTaken` | out-file-to-data.py:1274-1280 | the `included` loop is true exactly when a series of that header is selected |
| `Selection.SelectSets` | out-file-to-data.py:1252-1299 | the token loop computes the series selection |
| `Selection.Combinations` | out-file-to-data.py:1242-1304 | only selections of at least two series become plots |
| `Selection.OtherCombinations` | out-file-to-data.py:1240-1372 | the loop numbers the selections that become plots 1, 2, 3, ... |
| `Selection.CombinationNamesDistinct` | out-file-to-data.py:1356-1364 | the plots of the loop get pairwise different names, whatever their titles |
| `Text.Split` | out-file-to-data.py:580 | `split(d)` gives at least one piece and no piece holds the separator |
| `Text.SplitJoin` | out-file-to-data.py:580 | splitting a `d`-joined list of `d`-free fields gives the fields back |
| `Text.JoinSplit` | out-file-to-data.py:580 | joining what `split(d)` gave gives the string back |
| `Text.OddPieces` | out-file-to-data.py:83 | `[1::2]` keeps exactly the odd-indexed pieces, in order |
| `Text.Tokens` | out-file-to-data.py:103 | `split()` gives non-empty pieces without whitespace |
| `Text.TokensStrip` | out-file-to-data.py:103 | `strip().split()` equals `split()` |
| `Text.TokensJoin` | out-file-to-data.py:103 | space-joined non-empty tokens without whitespace split back into the tokens |
| `Text.StripLine` | out-file-to-data.py:580 | `strip()` drops the newline of a line with no other whitespace at its ends |
| `Text.RemoveAll` | out-file-to-data.py:1214 | `replace(p, "")` never lengthens |
| `Text.RemoveAllUnchanged` | out-file-to-data.py:1214 | `replace(p, "")` leaves the string as it is exactly when p is empty or does not occur |
| `Text.ReplaceSpaces` | out-file-to-data.py:1060 | `replace(" ", "-")` changes exactly the spaces, into '-' |
| `Text.CloseAt` | out-file-to-data.py:1230 | the first `]` that `.*?` can reach without crossing a newline |
| `Text.StripTags` | out-file-to-data.py:1230 | the substitution never lengthens and adds no character |
| `Text.StripTagsUnchanged` | out-file-to-data.py:1230 | the substitution changes the name exactly when the pattern matches somewhere |
| `Text.NatToStringDigits` | out-file-to-data.py:799 | `str(n)` is a non-empty string of digits that denotes n |
| `Common.FirstWhere` | out-file-to-data.py:547-552 | the index of the first element that satisfies the predicate, with no earlier element satisfying it; `None` exactly when no element does; `Find`, `FirstRef`, `FirstPrefixed` and `HeaderIndex` are this search |
| `Common.Find` | out-file-to-data.py:547-552 | the first index of a value; `None` exactly when it does not occur |

## Left out

- **File system.** The directory search and listing (402-438), `os.chdir`, opening and closing files, and the create-on-missing fallback are left out. A report file is given as its lines. The reference file is the list of its lines, passed in and returned; a missing file is the empty list.
- **Console.** `input`, `ynquery`, the "press Enter" pauses and all printing are left out. Each yes/no answer is a `bool` parameter.
  - Free-text answers are strings: a description, a title, the delimiter (one character, since the prompt is asked until it gets one), and the format choice (a `Layout`).
  - The rejected answers of the type and offset prompts are left out; the model takes the answer they finally accept (`Catalog.Answers`).
  - The `setminmax` prompts, and the file-number and series-number prompts, read from a sequence of answers. Running out of answers gives `None`.
- **`int()`, `float()` and `str(float)`.** They are given as functions (`toInt`, `NumberText`), with a predicate `isFloat` for the reals a float can hold. Two kinds of fact are assumed about `float`/`str`:
  - `Numbers.Numeral`: `str(x)` is a non-empty word over the numeral alphabet.
  - `Numbers.RoundTrips`: `float(str(x)) == x` for every float `x`, `float()` returns floats, `float("")` raises, and 0.0 and 1.0 are floats.
  - `Numbers.IntegerTextFaithful` shows both can hold together, with the integers written in decimal as the floats.
  - IEEE-754 arithmetic, NaN and infinities are not modelled: offsets, factors and samples are `real`.
- **Export.MapleReadBack, Export.SampleLineReadBack:** the round trip is stated only for samples that are floats. The model computes `factor*(raw+offset)` exactly, without rounding to a float, so it does not show that a derived sample is one. The split into pieces (`Export.MapleFields`, `Export.SampleLineFields`) holds for all samples.
- **Quantities.RefLineRoundTrip, Quantities.AppendedRefLoads, Catalog.AppendedRecordLoads:** the read-back is stated for offsets and factors that are floats. In the model they always are: `Quantities.LoadedRefsFloats`, `Catalog.ReconcileKeepsFloats` and `Catalog.ClassifiedFloats` show that each comes from `float()`, a default, or a reference.
- **`.lower()`.** It is ASCII lower case (`Catalog.Lower`). The prompt only accepts ASCII words, so nothing else depends on it.
- **Rendering.** `createplot`, matplotlib, colorama and the global plot options are left out. The `Plot` record's name, title, data, ranges and legend are computed by separate functions rather than assembled into a record.
- **Typed titles.** A typed plot title is a parameter (`Plots.IndividualTitle`, `Plots.CombinedTitle`); the source's `input` is not modelled.
- **Axis labels.** Line 1366 passes `xdescr`/`ydescr` left over from earlier loops as the labels of an "other combinations" plot. This is not modelled, since labels are only drawn.
- **Overwriting.** Two series or plots with the same file name overwrite each other's file. The model returns the list of files and does not model the collision.
- **`sys.exit`.** The exits at 562 and 714 are results: `NoQuantitiesIffNoDatasets` states when 562 fires, and `CheckGate` returns `false` for 714. The exit at 433 (no `.out` file in the directory) belongs to the directory search, which is left out with the file system. The exit at 915 is the user declining the plotting stage: the model has no member for it, the plotting stage is simply not entered. A `float()` failure or short row while deriving is `None`.
- **Derivation on values.** The deriver reads the catalog through its values (`QuantityValue`), not through the shared objects. Classification is over before derivation starts and nothing changes a quantity afterwards, so sharing cannot be observed. Series hold copies.
- **Regular expressions.** Only the one pattern the script uses, `-\[.*?\]`, is written out (`Text.StripTags`); Python's regex engine is not modelled.
- **Ranges.GetMinMax:** requires every series to have a value on the axis, because `np.min` of an empty list raises. The empty case is left out; `Ranges.KeptSeriesPlottable` shows it never arises for derived series.
- **Export.WriteAll:** requires every series to have a first x value and no fewer y values than x values, as the Maple layout's `xdata[-1]` and the delimited layout's loop need. `Export.KeptSeriesWritable` shows that every derived series meets this.
