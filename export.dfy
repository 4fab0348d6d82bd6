/** The per-chemical export and the batch: file paths, the TSV row, the plot handed
    to the plotter, and the name of the TSV file. */
module Export {
  import opened Records
  import opened IonOrder
  import opened Traces

  const TsvFormat := "tsv"
  const ChemicalField := "CHEMICAL"
  const BestIonField := "BEST_ION_FROM_ALGO"
  const DiagnosticPlotsField := "DIAGNOSTIC_PLOTS"

  // ---------------------------------------------------------------------------
  // Paths and the row

  function DataPath(plottingDir: string, chemical: string): string {
    plottingDir + "/" + chemical + ".data"
  }

  function ImagePath(plottingDir: string, chemical: string): string {
    plottingDir + "/" + chemical + ".pdf"
  }

  /** Different chemicals get different plot files in one plotting directory. */
  lemma ImagePathInjective(plottingDir: string, a: string, b: string)
    requires ImagePath(plottingDir, a) == ImagePath(plottingDir, b)
    ensures a == b
  {
    var n := |plottingDir| + 1;
    assert |a| == |b|;
    assert ImagePath(plottingDir, a)[n..n + |a|] == a;
    assert ImagePath(plottingDir, b)[n..n + |b|] == b;
  }

  /** The data file of a chemical is never the plot file of any chemical. */
  lemma DataPathIsNotImagePath(plottingDir: string, a: string, b: string)
    ensures DataPath(plottingDir, a) != ImagePath(plottingDir, b)
  {
    var d := DataPath(plottingDir, a);
    var i := ImagePath(plottingDir, b);
    assert d[|d| - 1] == 'a';
    assert i[|i| - 1] == 'f';
  }

  function BuildRow(chemical: string, bestIon: string, image: string): map<string, string> {
    map[ChemicalField := chemical, BestIonField := bestIon, DiagnosticPlotsField := image]
  }

  // ---------------------------------------------------------------------------
  // One chemical

  /** The database accessors and external helpers the export calls:
      StandardIonResult.getByChemicalName (None where it returns null),
      AnalysisHelper.scoreAndReturnBestMetlinIonFromStandardIonResults,
      StandardIonResult.categorizeListOfStandardWellsByMedia, and the scan tools. */
  datatype Lab = Lab(
    resultsFor: string -> Option<seq<Replicate>>,
    scoreBestIon: seq<Replicate> -> string,
    categorize: seq<Replicate> -> seq<MediaGroup>,
    tools: ScanTools)

  /** The arguments of the plot2D call that matter here. */
  datatype PlotJob = PlotJob(dataFile: string, imageFile: string, labels: seq<string>, yMaxes: seq<real>)

  datatype ChemicalExport = ChemicalExport(row: map<string, string>, plot: PlotJob)

  /** What one iteration of the chemical loop produces: nothing when the database has no
      results for the chemical, otherwise its row and plot, or the exception raised. */
  function ExportOf(lab: Lab, plottingDir: string, chemical: string): Result<Option<ChemicalExport>, Fault> {
    match lab.resultsFor(chemical)
    case None => Success(None)
    case Some(results) =>
      if |results| == 0 then Success(None)
      else
        var winner := lab.scoreBestIon(results);
        var ions := DisplayOrder(winner, results);
        match Assemble(lab.tools, ions, Fold(ions), lab.categorize(results))
        case Failure(e) => Failure(e)
        case Success(p) =>
          var image := ImagePath(plottingDir, chemical);
          Success(Some(ChemicalExport(
            BuildRow(chemical, winner, image),
            PlotJob(DataPath(plottingDir, chemical), image, p.labels, p.yMaxes))))
  }

  /** The body of the chemical loop. */
  method ExportChemical(lab: Lab, plottingDir: string, chemical: string)
    returns (res: Result<Option<ChemicalExport>, Fault>)
    ensures res == ExportOf(lab, plottingDir, chemical)
  {
    var outData := plottingDir + "/" + chemical + ".data";
    var outImg := plottingDir + "/" + chemical + ".pdf";
    var found := lab.resultsFor(chemical);
    if found.None? || |found.value| == 0 {
      return Success(None);
    }
    var results := found.value;
    var bestMetlinIon := lab.scoreBestIon(results);
    var categories := lab.categorize(results);
    var bestLocalIons := CollectCandidateIons(bestMetlinIon, results);
    var ions := SortIons(bestLocalIons, bestMetlinIon);
    var fold := ComputeFold(ions);
    var plot := AssembleTraces(lab.tools, ions, fold, categories);
    if plot.Failure? {
      return Failure(plot.error);
    }
    var row := map[ChemicalField := chemical, BestIonField := bestMetlinIon, DiagnosticPlotsField := outImg];
    res := Success(Some(ChemicalExport(row, PlotJob(outData, outImg, plot.value.labels, plot.value.yMaxes))));
  }

  /** A chemical yields a row exactly when the database returns a non-null, non-empty
      result list and the plot is assembled without an exception. The row has exactly
      the chemical, the winning ion and the plot path, which is the image file handed to
      the plotter. */
  lemma ExportRow(lab: Lab, plottingDir: string, chemical: string)
    ensures ExportOf(lab, plottingDir, chemical) == Success(None) <==>
      lab.resultsFor(chemical).None? || |lab.resultsFor(chemical).value| == 0
    ensures ExportOf(lab, plottingDir, chemical).Success? && ExportOf(lab, plottingDir, chemical).value.Some? ==>
      var e := ExportOf(lab, plottingDir, chemical).value.value;
      var results := lab.resultsFor(chemical).value;
      && |results| > 0
      && e.row.Keys == {ChemicalField, BestIonField, DiagnosticPlotsField}
      && e.row[ChemicalField] == chemical
      && e.row[BestIonField] == lab.scoreBestIon(results)
      && e.row[DiagnosticPlotsField] == plottingDir + "/" + chemical + ".pdf"
      && e.plot.imageFile == e.row[DiagnosticPlotsField]
      && e.plot.dataFile == plottingDir + "/" + chemical + ".data"
  {
  }

  /** The plot of an exported chemical has one maximum per included pair, one per
      negative control and one or two blanks: one when the winner is the default ion,
      two otherwise. */
  lemma ExportPlotLengths(lab: Lab, plottingDir: string, chemical: string)
    requires ExportOf(lab, plottingDir, chemical).Success?
    requires ExportOf(lab, plottingDir, chemical).value.Some?
    ensures var results := lab.resultsFor(chemical).value;
      var winner := lab.scoreBestIon(results);
      var ions := DisplayOrder(winner, results);
      var groups := lab.categorize(results);
      var e := ExportOf(lab, plottingDir, chemical).value.value;
      && |e.plot.yMaxes| == PairsFrom(ions, Fold(ions), groups, 0) + ControlsFrom(ions, Fold(ions), groups, 0) +
                            (if winner == DefaultIon then 1 else 2)
      && (OneLabelPerScan(lab.tools) ==> |e.plot.labels| == |e.plot.yMaxes|)
  {
    var results := lab.resultsFor(chemical).value;
    var winner := lab.scoreBestIon(results);
    var ions := DisplayOrder(winner, results);
    var groups := lab.categorize(results);
    DisplayOrderFold(winner, results);
    PlotLengths(lab.tools, ions, Fold(ions), groups, Assemble(lab.tools, ions, Fold(ions), groups).value);
  }

  // ---------------------------------------------------------------------------
  // The batch

  /** The rows appended to the TSV writer, the plots drawn, and the exception that ended
      the run, if any. */
  datatype Report = Report(rows: seq<map<string, string>>, plots: seq<PlotJob>, fault: Option<Fault>)

  /** The chemical loop from `chemicals` on, after `done`. An exception ends the run and
      keeps the rows already appended and flushed. */
  function ExportFrom(lab: Lab, plottingDir: string, chemicals: seq<string>, done: Report): Report
    decreases |chemicals|
  {
    if chemicals == [] then done
    else match ExportOf(lab, plottingDir, chemicals[0])
      case Failure(e) => Report(done.rows, done.plots, Some(e))
      case Success(None) => ExportFrom(lab, plottingDir, chemicals[1..], done)
      case Success(Some(x)) =>
        ExportFrom(lab, plottingDir, chemicals[1..], Report(done.rows + [x.row], done.plots + [x.plot], done.fault))
  }

  function ExportAllOf(lab: Lab, plottingDir: string, chemicals: seq<string>): Report {
    if |chemicals| == 0 then Report([], [], Some(NoChemicals))
    else ExportFrom(lab, plottingDir, chemicals, Report([], [], None))
  }

  /** The loop over the requested chemicals. */
  method ExportAll(lab: Lab, plottingDir: string, chemicals: seq<string>) returns (report: Report)
    ensures report == ExportAllOf(lab, plottingDir, chemicals)
  {
    if |chemicals| == 0 {
      return Report([], [], Some(NoChemicals));
    }
    var rows: seq<map<string, string>> := [];
    var plots: seq<PlotJob> := [];
    var k := 0;
    while k < |chemicals|
      invariant 0 <= k <= |chemicals|
      invariant ExportAllOf(lab, plottingDir, chemicals) ==
                ExportFrom(lab, plottingDir, chemicals[k..], Report(rows, plots, None))
    {
      assert chemicals[k..][1..] == chemicals[k + 1..];
      var exported := ExportChemical(lab, plottingDir, chemicals[k]);
      if exported.Failure? {
        return Report(rows, plots, Some(exported.error));
      }
      if exported.value.Some? {
        rows := rows + [exported.value.value.row];
        plots := plots + [exported.value.value.plot];
      }
      k := k + 1;
    }
    report := Report(rows, plots, None);
  }

  /** The number of chemicals for which the database returns a non-empty result list. */
  function WithResults(lab: Lab, chemicals: seq<string>): nat {
    if chemicals == [] then 0
    else (if lab.resultsFor(chemicals[0]).Some? && |lab.resultsFor(chemicals[0]).value| > 0 then 1 else 0) +
         WithResults(lab, chemicals[1..])
  }

  /** Rows and plots already produced are never lost, whatever happens later. */
  lemma {:induction false} ExportFromKeeps(lab: Lab, plottingDir: string, chemicals: seq<string>, done: Report)
    ensures var r := ExportFrom(lab, plottingDir, chemicals, done);
      done.rows <= r.rows && done.plots <= r.plots
    decreases |chemicals|
  {
    if chemicals != [] {
      match ExportOf(lab, plottingDir, chemicals[0])
      case Failure(e) =>
      case Success(None) =>
        ExportFromKeeps(lab, plottingDir, chemicals[1..], done);
      case Success(Some(x)) =>
        ExportFromKeeps(lab, plottingDir, chemicals[1..], Report(done.rows + [x.row], done.plots + [x.plot], done.fault));
    }
  }

  /** When the run ends without an exception, there is one new row and one new plot per
      chemical with results. */
  lemma {:induction false} ExportFromCounts(lab: Lab, plottingDir: string, chemicals: seq<string>, done: Report)
    requires done.fault.None?
    ensures var r := ExportFrom(lab, plottingDir, chemicals, done);
      r.fault.None? ==>
        |r.rows| == |done.rows| + WithResults(lab, chemicals) &&
        |r.plots| == |done.plots| + WithResults(lab, chemicals)
    decreases |chemicals|
  {
    if chemicals != [] {
      ExportRow(lab, plottingDir, chemicals[0]);
      match ExportOf(lab, plottingDir, chemicals[0])
      case Failure(e) =>
      case Success(None) =>
        ExportFromCounts(lab, plottingDir, chemicals[1..], done);
      case Success(Some(x)) =>
        ExportFromCounts(lab, plottingDir, chemicals[1..], Report(done.rows + [x.row], done.plots + [x.plot], done.fault));
    }
  }

  /** A run without an exception writes one row per chemical with results. */
  lemma ExportAllRows(lab: Lab, plottingDir: string, chemicals: seq<string>)
    ensures var r := ExportAllOf(lab, plottingDir, chemicals);
      && (|chemicals| == 0 <==> r.fault == Some(NoChemicals) && r.rows == [])
      && (r.fault.None? ==> |r.rows| == |r.plots| == WithResults(lab, chemicals))
  {
    if |chemicals| > 0 {
      ExportFromCounts(lab, plottingDir, chemicals, Report([], [], None));
      var r := ExportAllOf(lab, plottingDir, chemicals);
      if r.fault == Some(NoChemicals) {
        NoChemicalsOnlyUpFront(lab, plottingDir, chemicals, Report([], [], None));
      }
    }
  }

  /** Once chemicals are exported, the only fault is one raised by a chemical. */
  lemma {:induction false} NoChemicalsOnlyUpFront(lab: Lab, plottingDir: string, chemicals: seq<string>, done: Report)
    requires done.fault.None?
    ensures ExportFrom(lab, plottingDir, chemicals, done).fault != Some(NoChemicals)
    decreases |chemicals|
  {
    if chemicals != [] {
      match ExportOf(lab, plottingDir, chemicals[0])
      case Failure(e) =>
        assert e != NoChemicals by { FaultsOfExport(lab, plottingDir, chemicals[0]); }
      case Success(None) =>
        NoChemicalsOnlyUpFront(lab, plottingDir, chemicals[1..], done);
      case Success(Some(x)) =>
        NoChemicalsOnlyUpFront(lab, plottingDir, chemicals[1..],
          Report(done.rows + [x.row], done.plots + [x.plot], done.fault));
    }
  }

  lemma FaultsOfExport(lab: Lab, plottingDir: string, chemical: string)
    ensures ExportOf(lab, plottingDir, chemical).Failure? ==> ExportOf(lab, plottingDir, chemical).error != NoChemicals
  {
    match lab.resultsFor(chemical)
    case None =>
    case Some(results) =>
      if |results| > 0 {
        var winner := lab.scoreBestIon(results);
        var ions := DisplayOrder(winner, results);
        IonsNeverNoChemicals(lab.tools, ions, Fold(ions), lab.categorize(results), 0, EmptyPlot);
      }
  }

  lemma {:induction false} IonsNeverNoChemicals(t: ScanTools, ions: seq<string>, fold: nat,
                                                groups: seq<MediaGroup>, i: nat, acc: Plot)
    ensures IonsFrom(t, ions, fold, groups, i, acc).Failure? ==> IonsFrom(t, ions, fold, groups, i, acc).error != NoChemicals
    decreases |ions| - i
  {
    if i < |ions| {
      GroupsNeverNoChemicals(t, i, fold, ions[i], groups, acc);
      match GroupsFrom(t, i, fold, ions[i], groups, acc)
      case Failure(e) =>
      case Success(a) =>
        IonsNeverNoChemicals(t, ions, fold, groups, i + 1, if i < fold then WithBlank(t, a) else a);
    }
  }

  lemma {:induction false} GroupsNeverNoChemicals(t: ScanTools, i: nat, fold: nat, ion: string,
                                                  groups: seq<MediaGroup>, acc: Plot)
    ensures GroupsFrom(t, i, fold, ion, groups, acc).Failure? ==> GroupsFrom(t, i, fold, ion, groups, acc).error != NoChemicals
    decreases |groups|
  {
    if groups != [] {
      ResultsNeverNoChemicals(t, groups[0].media, i, fold, ion, groups[0].results, acc);
      match ResultsFrom(t, groups[0].media, i, fold, ion, groups[0].results, acc)
      case Failure(e) =>
      case Success(a) =>
        GroupsNeverNoChemicals(t, i, fold, ion, groups[1..], a);
    }
  }

  lemma {:induction false} ResultsNeverNoChemicals(t: ScanTools, media: string, i: nat, fold: nat, ion: string,
                                                   results: seq<Replicate>, acc: Plot)
    ensures ResultsFrom(t, media, i, fold, ion, results, acc).Failure? ==>
      ResultsFrom(t, media, i, fold, ion, results, acc).error != NoChemicals
    decreases |results|
  {
    if results != [] {
      match PairStep(t, media, i, fold, ion, results[0])
      case Failure(e) =>
      case Success(p) =>
        ResultsNeverNoChemicals(t, media, i, fold, ion, results[1..], Concat(acc, p));
    }
  }

  // ---------------------------------------------------------------------------
  // The TSV file name

  /** String.join("-", names). */
  function JoinWithDash(names: seq<string>): string {
    if |names| == 0 then ""
    else if |names| == 1 then names[0]
    else names[0] + "-" + JoinWithDash(names[1..])
  }

  /** The position of the first dash, or |s| when there is none. */
  function FirstDash(s: string): (r: nat)
    ensures r <= |s|
    ensures r < |s| ==> s[r] == '-'
    ensures '-' !in s[..r]
  {
    if s == [] then 0
    else if s[0] == '-' then 0
    else
      var r := 1 + FirstDash(s[1..]);
      assert s[..r] == [s[0]] + s[1..][..r - 1];
      r
  }

  /** Splitting a file stem back into the names it was joined from. */
  function SplitAtDash(s: string): seq<string>
    decreases |s|
  {
    var d := FirstDash(s);
    if d == |s| then [s] else [s[..d]] + SplitAtDash(s[d + 1..])
  }

  /** The TSV file: the output prefix when one is given, otherwise the chemical names
      joined with dashes, with the extension ".tsv". */
  function OutputFileName(prefix: Option<string>, chemicals: seq<string>): string {
    (if prefix.Some? then prefix.value else JoinWithDash(chemicals)) + "." + TsvFormat
  }

  lemma {:induction false} JoinThenSplit(names: seq<string>)
    requires |names| > 0
    requires forall k | 0 <= k < |names| :: '-' !in names[k]
    ensures SplitAtDash(JoinWithDash(names)) == names
  {
    var s := JoinWithDash(names);
    if |names| == 1 {
      assert s[..|s|] == s;
    } else {
      var head := names[0];
      var rest := JoinWithDash(names[1..]);
      assert s == head + "-" + rest;
      var d := FirstDash(s);
      assert s[|head|] == '-';
      assert s[..|head|] == head;
      assert d == |head|;
      assert s[..d] == head;
      assert s[d + 1..] == rest;
      JoinThenSplit(names[1..]);
    }
  }

  /** Without a prefix, the TSV file name ends in ".tsv" and, when no chemical name
      contains a dash, its stem determines the chemical list. */
  lemma OutputFileNameNamesChemicals(chemicals: seq<string>)
    requires |chemicals| > 0
    requires forall k | 0 <= k < |chemicals| :: '-' !in chemicals[k]
    ensures var n := OutputFileName(None, chemicals);
      EndsWith(n, ".tsv") && SplitAtDash(n[..|n| - 4]) == chemicals
  {
    var n := OutputFileName(None, chemicals);
    assert n[..|n| - 4] == JoinWithDash(chemicals);
    JoinThenSplit(chemicals);
  }
}
