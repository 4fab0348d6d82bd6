# Standard-ion export: a Dafny model

This project models the core of `ExportStandardIonResultsFromDB`. For each requested
chemical, that program:
- reads the standard ion results (replicates) from the database;
- takes the winning ("best metlin") ion from an external scorer;
- builds the candidate ions: the winner, the default ion `M+H` and every replicate's own best ion;
- sorts the candidates so that the winner comes first and `M+H` next;
- computes the fold index, one past the position of `M+H`;
- walks ion × media group × replicate, building the labelled traces and the list of y-axis maxima for the plotter;
- appends one TSV row holding the chemical, the winning ion and the path of its diagnostic plot.

Modules:
- `Records` (records.dfy): the database records as values (wells, peaks, replicates, media groups) and the faults that end a run.
- `Media` (media.dfy): `sanitizeYeastMediaString`.
- `IonOrder` (ion_order.dfy): the candidate list, the comparator and the sort, and the fold index.
- `Traces` (traces.dfy): one (ion, replicate) pair, and the triple loop that fills `graphLabels` and `yMaxList`.
- `Export` (export.dfy): the paths, the row, one chemical, the batch, and the TSV file name.

Where the program changes things step by step, the model is a method with loops. These are:
- filling the candidate set;
- the fold-index loop;
- the `ListIterator` loop that appends a suffix to every label;
- the triple loop over ions, media groups and replicates;
- the loop over chemicals.

Each such method is proved equal to a pure function, and the lemmas state the program's promises about those functions. The external calls are fields of two datatypes, `Traces.ScanTools` and `Export.Lab`, and the model knows nothing about their results. They are:
- the database lookups;
- the ion scorer;
- the media categoriser;
- `writeScanData`;
- `getMaxIntensityForIon`;
- the SNR/time formatting.

An exception in the program becomes a `Failure` in the model:
- a well id that does not resolve (null is then dereferenced);
- an empty list of negative-well ids (index 0 is out of bounds).

Such a failure ends the batch, because nothing in `main` catches it. Rows appended and flushed before it are kept.

## Model

| member | source | states |
|---|---|---|
| `Media.SanitizeYeastMedia` | reachables/src/main/java/com/act/lcms/db/io/ExportStandardIonResultsFromDB.java:115-121 | A name containing the long Teknova broth name becomes "SC Minimal Broth"; any other name is returned unchanged; the result never contains the long name |
| `Media.SanitizeIdempotent` | reachables/src/main/java/com/act/lcms/db/io/ExportStandardIonResultsFromDB.java:115-121 | Sanitising twice gives the same result as sanitising once |
| `IonOrder.CandidateIons` | reachables/src/main/java/com/act/lcms/db/io/ExportStandardIonResultsFromDB.java:216-222 | The candidate list has no duplicates and holds exactly the winner, `M+H` and every result's own best ion |
| `IonOrder.CollectCandidateIons` | reachables/src/main/java/com/act/lcms/db/io/ExportStandardIonResultsFromDB.java:216-222 | The loop of `add` calls builds exactly that candidate list |
| `IonOrder.Compare` | reachables/src/main/java/com/act/lcms/db/io/ExportStandardIonResultsFromDB.java:225-236 | The comparator only ever answers -1 or 1 |
| `IonOrder.CompareFollowsRank` | reachables/src/main/java/com/act/lcms/db/io/ExportStandardIonResultsFromDB.java:225-236 | On two different ions the comparator says "less" exactly when the first ranks lower (winner < `M+H` < others) |
| `IonOrder.CompareNotAntisymmetric` | reachables/src/main/java/com/act/lcms/db/io/ExportStandardIonResultsFromDB.java:225-236 | Two ions that are neither the winner nor `M+H` each compare greater than the other, so the comparator is not a total order |
| `IonOrder.CompareNotReflexive` | reachables/src/main/java/com/act/lcms/db/io/ExportStandardIonResultsFromDB.java:225-236 | Unless it won, `M+H` compares less than itself, so the comparator is not reflexive |
| `IonOrder.SortIons` | reachables/src/main/java/com/act/lcms/db/io/ExportStandardIonResultsFromDB.java:224-236 | The sorted list is a permutation of the input (same multiset), its ranks never decrease, and no later ion compares less than an earlier one |
| `IonOrder.SortedShape` | reachables/src/main/java/com/act/lcms/db/io/ExportStandardIonResultsFromDB.java:224-236 | For a duplicate-free pool containing the winner and `M+H`, the sorted list is the winner, then `M+H` unless it won, then the other ions in iteration order |
| `IonOrder.Fold` | reachables/src/main/java/com/act/lcms/db/io/ExportStandardIonResultsFromDB.java:238-243 | The fold index is one past the last `M+H`: the ion just before it is `M+H` and no `M+H` follows; it is 0 when `M+H` is absent |
| `IonOrder.ComputeFold` | reachables/src/main/java/com/act/lcms/db/io/ExportStandardIonResultsFromDB.java:238-243 | The loop that updates `foldIntoOnePageFromIndex` computes that fold index |
| `IonOrder.DisplayOrderIsPermutation` | reachables/src/main/java/com/act/lcms/db/io/ExportStandardIonResultsFromDB.java:216-236 | The display order is a permutation of the candidate list and holds exactly the winner, `M+H` and every result's best ion |
| `IonOrder.DisplayOrderHead` | reachables/src/main/java/com/act/lcms/db/io/ExportStandardIonResultsFromDB.java:224-236 | The display order has no duplicates, the winner is at index 0, and `M+H` comes before every ion that is neither the winner nor `M+H` |
| `IonOrder.DisplayOrderFold` | reachables/src/main/java/com/act/lcms/db/io/ExportStandardIonResultsFromDB.java:238-243 | The fold index of the display order is 1 or 2, is 1 exactly when the winner is `M+H`, and `M+H` sits at position fold-1 |
| `Traces.AppendToEach` | reachables/src/main/java/com/act/lcms/db/io/ExportStandardIonResultsFromDB.java:285-287 | The `ListIterator` loop keeps the number of labels and appends the same suffix to every label |
| `Traces.ProcessPair` | reachables/src/main/java/com/act/lcms/db/io/ExportStandardIonResultsFromDB.java:251-327 | The body of the innermost loop computes exactly what one (ion, result) pair contributes, or the exception it raises |
| `Traces.PairStepOutcome` | reachables/src/main/java/com/act/lcms/db/io/ExportStandardIonResultsFromDB.java:252-321 | A pair that is not included adds nothing. An included pair fails exactly when its positive well, or the first negative id a control needs, does not resolve. Otherwise the positive maximum comes first, and the negative-control maximum (from `negativeWellIds[0]`) follows it exactly when the group is YEAST, i >= fold and the ion is the result's best ion |
| `Traces.PairLabels` | reachables/src/main/java/com/act/lcms/db/io/ExportStandardIonResultsFromDB.java:264-320 | Every positive label is the label `writeScanData` returned plus the same plate annotation, and ends with "No peaks found" when the result has no peak for the ion. With a negative control, the labels are the positive ones followed by exactly one label per label returned for the first negative well, each that label plus the well's annotation ending in "Negative Control"; without one there are no further labels |
| `Traces.NullConcentration` | reachables/src/main/java/com/act/lcms/db/io/ExportStandardIonResultsFromDB.java:268-315 | A null concentration is written as nothing in a positive annotation and as one space in a negative-control annotation |
| `Traces.AssembleTraces` | reachables/src/main/java/com/act/lcms/db/io/ExportStandardIonResultsFromDB.java:247-337 | The triple loop over ions, media groups and results, including the blank after each universal ion, computes the specified plot or the first exception |
| `Traces.PlotLengths` | reachables/src/main/java/com/act/lcms/db/io/ExportStandardIonResultsFromDB.java:289-336 | `yMaxList` ends with (included pairs) + (negative controls) + fold entries. If `writeScanData` returns one label per call, labels and maxima line up one to one |
| `Traces.ResultsCounts` | reachables/src/main/java/com/act/lcms/db/io/ExportStandardIonResultsFromDB.java:250-329 | Over one media group, the maxima grow by the number of included pairs plus the number of negative controls |
| `Traces.GroupsCounts` | reachables/src/main/java/com/act/lcms/db/io/ExportStandardIonResultsFromDB.java:249-330 | Over all media groups for one ion, the maxima grow by the included pairs plus the negative controls |
| `Traces.IonsCounts` | reachables/src/main/java/com/act/lcms/db/io/ExportStandardIonResultsFromDB.java:247-337 | From ion i on, the maxima grow by the pairs, the controls and one blank per remaining universal ion |
| `Traces.AppearancesCount` | reachables/src/main/java/com/act/lcms/db/io/ExportStandardIonResultsFromDB.java:247-253 | With a duplicate-free order, a result is drawn once per universal ion, plus once more exactly when its own best ion is a tail ion |
| `Export.ImagePathInjective` | reachables/src/main/java/com/act/lcms/db/io/ExportStandardIonResultsFromDB.java:197 | Different chemicals get different `.pdf` paths in one plotting directory |
| `Export.DataPathIsNotImagePath` | reachables/src/main/java/com/act/lcms/db/io/ExportStandardIonResultsFromDB.java:196-197 | No chemical's `.data` path equals any chemical's `.pdf` path |
| `Export.ExportChemical` | reachables/src/main/java/com/act/lcms/db/io/ExportStandardIonResultsFromDB.java:192-353 | One iteration of the chemical loop computes the specified row and plot, no output, or the exception |
| `Export.ExportRow` | reachables/src/main/java/com/act/lcms/db/io/ExportStandardIonResultsFromDB.java:196-351 | There is no output exactly when the result list is null or empty. Otherwise the row has exactly the keys CHEMICAL, BEST_ION_FROM_ALGO and DIAGNOSTIC_PLOTS. They hold the chemical, the winning ion and plottingDir + "/" + chemical + ".pdf", and that path is the plotter's image file |
| `Export.ExportPlotLengths` | reachables/src/main/java/com/act/lcms/db/io/ExportStandardIonResultsFromDB.java:238-344 | The maxima handed to the plotter number (pairs) + (controls) + 1 when the winner is `M+H`, and + 2 otherwise |
| `Export.ExportAll` | reachables/src/main/java/com/act/lcms/db/io/ExportStandardIonResultsFromDB.java:160-355 | The loop over chemicals computes the specified rows, plots and ending fault. An empty chemical list stops before any row is written |
| `Export.ExportFromKeeps` | reachables/src/main/java/com/act/lcms/db/io/ExportStandardIonResultsFromDB.java:346-352 | Rows and plots already produced are kept whatever happens to later chemicals |
| `Export.ExportFromCounts` | reachables/src/main/java/com/act/lcms/db/io/ExportStandardIonResultsFromDB.java:192-355 | A run with no exception adds one row and one plot per chemical that has results |
| `Export.ExportAllRows` | reachables/src/main/java/com/act/lcms/db/io/ExportStandardIonResultsFromDB.java:160-355 | The run fails with "no chemicals" exactly for an empty list, and then writes no rows. A run with no exception writes one row per chemical that has results |
| `Export.FaultsOfExport` | reachables/src/main/java/com/act/lcms/db/io/ExportStandardIonResultsFromDB.java:199-353 | Processing a chemical never raises the "no chemicals" fault |
| `Export.JoinThenSplit` | reachables/src/main/java/com/act/lcms/db/io/ExportStandardIonResultsFromDB.java:177 | Joining dash-free names with "-" and splitting at the dashes gives the names back |
| `Export.OutputFileNameNamesChemicals` | reachables/src/main/java/com/act/lcms/db/io/ExportStandardIonResultsFromDB.java:173-178 | Without a prefix, the TSV name ends with ".tsv", and for dash-free names its stem determines the chemical list |

## Left out

- Option building and parsing, the help text, and the checks that the LCMS directory exists (lines 63-101, 123-142, 180-185): these are command-line plumbing.
- Gathering chemical names from a construct (lines 145-158): the chemical list is an input. Only the exit on an empty list is modelled.
- The database (`DB.openDBFromCLI`, `StandardIonResult.getByChemicalName`, `StandardWell.getById`): these become inputs. They are a function from chemical to an optional result list and a map from well id to well.
- `AnalysisHelper.scoreAndReturnBestMetlinIonFromStandardIonResults`: its rule is not visible. The winner is an input function and no tie-break is assumed.
- `StandardIonResult.categorizeListOfStandardWellsByMedia`: it is not visible. The media groups are an input function, taken in its iteration order, and the model does no media normalisation of its own.
- `AnalysisHelper.getScanDataFromStandardIonResult`, `writeScanData` and `getMaxIntensityForIon`: these are opaque functions. Their writes to the `.data` stream are not modelled, and neither is the opening of that file (it happens even for a chemical with no results).
- `Gnuplotter.plot2D` and `TSVWriter`: the model returns the plot arguments and the rows. It does not model drawing or file writing.
- The `%.2f` formatting of SNR and time is an opaque function, and intensities are reals.
- HashSet iteration order is modelled as insertion order. Java iterates in hash-bucket order, so with two or more ions of the last rank the order of those ions (and of their labels) that `Export.ExportOf` computes may differ from the program's. Every ordering lemma about `IonOrder.SortIons` holds for any duplicate-free pool, so those do not rely on that choice.
- `Collections.sort` with the comparator is modelled as a stable sort by rank (winner, `M+H`, others). For fewer than 32 candidates, Java's binary insertion sort gives exactly this order. For larger lists TimSort's merging may order the other ions differently, or throw on the inconsistent comparator (`IonOrder.CompareNotAntisymmetric`, `IonOrder.CompareNotReflexive`). Nothing is claimed about the order among the other ions beyond 31 candidates.
- `Traces.PlotLengths`: labels and maxima are shown to line up one to one only under the explicit assumption that `writeScanData` returns one label per call, because that method's output length is not visible.
- `Export.ExportAllRows`: the batch lemmas do not restate each row's exact keys. `Export.ExportRow` states them per chemical.
- A trace with no peak records `getMaxIntensityForIon` of its scan data (lines 289 and 308), whatever the analysis map holds, not 0.0.
- A null or empty result list is skipped silently (line 202). Any exception ends the whole run: there is no per-chemical recovery.
- Labels and maxima have equal length only if `writeScanData` returns one label per call (lines 265 and 305 against 289 and 308).
- `BingSearchRanker.java` is not part of this model. It wraps MongoDB cursors, web-search calls and TSV output.
