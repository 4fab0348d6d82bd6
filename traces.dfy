/** Assembly of the diagnostic plot of one chemical: for every ion of the display order,
    every media group and every result in it, the labelled traces and the y-axis maxima
    handed to the plotter. */
module Traces {
  import opened Records
  import opened Media
  import opened IonOrder

  /** The media group whose tail ions also get a negative-control trace. */
  const YeastMedia := "YEAST"
  /** The intensity ceiling passed to writeScanData for every well trace. */
  const MaxIntensity: real := 500000.0
  const NoPeaksFound := "\nNo peaks found"
  const NegativeControl := "Negative Control"

  /** The scan data a trace is drawn from: the scan of a well for a chemical (and the
      chemical of the control it is compared with), or the blank scan. */
  datatype Scan = WellScan(well: Well, chemical: string, controlChemical: string) | BlankScan

  /** The collaborators the assembly calls and cannot see: the well table
      (StandardWell.getById), writeScanData (the labels it returns for a scan, a ceiling
      and a set of ions), getMaxIntensityForIon, and the "%.2fSNR at %.2fs" formatting. */
  datatype ScanTools = ScanTools(
    wells: map<int, Well>,
    writeScanData: (Scan, real, set<string>) -> seq<string>,
    maxIntensityForIon: (Scan, string) -> real,
    formatSnrTime: Peak -> string)

  /** What has been accumulated so far: graphLabels and yMaxList. */
  datatype Plot = Plot(labels: seq<string>, yMaxes: seq<real>)

  const EmptyPlot := Plot([], [])

  function Concat(a: Plot, b: Plot): Plot {
    Plot(a.labels + b.labels, a.yMaxes + b.yMaxes)
  }

  // ---------------------------------------------------------------------------
  // Labels

  /** Sanitised media, a space, and the concentration or `absent` when it is null. */
  function PlateMetadata(w: Well, absent: string): string {
    SanitizeYeastMedia(w.media) + " " + (if w.concentration.Some? then w.concentration.value else absent)
  }

  /** The text appended to every label of a positive trace. */
  function PositiveInfo(w: Well, analysis: map<string, Peak>, ion: string, format: Peak -> string): string {
    "\n" + PlateMetadata(w, "") + " " + (if ion in analysis then "\n" + format(analysis[ion]) else NoPeaksFound)
  }

  /** The text appended to every label of a negative-control trace. */
  function NegativeInfo(w: Well): string {
    "\n" + PlateMetadata(w, " ") + " " + NegativeControl
  }

  /** A null concentration is written as nothing on a positive label but as one space on
      a negative-control label. */
  lemma NullConcentration(w: Well, analysis: map<string, Peak>, ion: string, format: Peak -> string)
    requires w.concentration.None?
    ensures PositiveInfo(w, analysis, ion, format)
            == "\n" + SanitizeYeastMedia(w.media) + "  " + (if ion in analysis then "\n" + format(analysis[ion]) else NoPeaksFound)
    ensures NegativeInfo(w) == "\n" + SanitizeYeastMedia(w.media) + "   " + NegativeControl
  {
  }

  function Suffixed(labels: seq<string>, suffix: string): seq<string> {
    seq(|labels|, k requires 0 <= k < |labels| => labels[k] + suffix)
  }

  /** The ListIterator loop that appends `suffix` to every label in place. */
  method AppendToEach(labels: seq<string>, suffix: string) returns (out: seq<string>)
    ensures |out| == |labels|
    ensures forall k | 0 <= k < |labels| :: out[k] == labels[k] + suffix
  {
    out := labels;
    var k := 0;
    while k < |out|
      invariant 0 <= k <= |out| == |labels|
      invariant forall j | 0 <= j < k :: out[j] == labels[j] + suffix
      invariant forall j | k <= j < |out| :: out[j] == labels[j]
    {
      out := out[k := out[k] + suffix];
      k := k + 1;
    }
  }

  // ---------------------------------------------------------------------------
  // One (ion, result) pair

  /** The pair of the ion at position i and a result is drawn when the ion is universal
      (before the fold) or is the result's own best ion. */
  predicate Included(i: nat, fold: nat, ion: string, r: Replicate) {
    i < fold || (i >= fold && r.bestMetlinIon == ion)
  }

  /** The pair also gets a negative-control trace only in the yeast group, for a tail ion
      that is the result's own best ion. */
  predicate WithNegativeControl(media: string, i: nat, fold: nat, ion: string, r: Replicate) {
    media == YeastMedia && i >= fold && r.bestMetlinIon == ion
  }

  function PositiveScan(pw: Well): Scan {
    WellScan(pw, pw.chemical, pw.chemical)
  }

  function NegativeScan(pw: Well, nw: Well): Scan {
    WellScan(nw, pw.chemical, nw.chemical)
  }

  /** What the innermost loop body adds for one pair, or the exception it raises. */
  function PairStep(t: ScanTools, media: string, i: nat, fold: nat, ion: string, r: Replicate): Result<Plot, Fault> {
    if !Included(i, fold, ion, r) then Success(EmptyPlot)
    else if r.standardWellId !in t.wells then Failure(UnresolvedWell(r.standardWellId))
    else
      var pw := t.wells[r.standardWellId];
      var labels := Suffixed(t.writeScanData(PositiveScan(pw), MaxIntensity, {ion}),
                             PositiveInfo(pw, r.analysisResults, ion, t.formatSnrTime));
      var y := t.maxIntensityForIon(PositiveScan(pw), ion);
      if !WithNegativeControl(media, i, fold, ion, r) then Success(Plot(labels, [y]))
      else if |r.negativeWellIds| == 0 then Failure(NoNegativeWell)
      else if r.negativeWellIds[0] !in t.wells then Failure(UnresolvedWell(r.negativeWellIds[0]))
      else
        var nw := t.wells[r.negativeWellIds[0]];
        var negLabels := Suffixed(t.writeScanData(NegativeScan(pw, nw), MaxIntensity, {ion}), NegativeInfo(nw));
        Success(Plot(labels + negLabels, [y, t.maxIntensityForIon(NegativeScan(pw, nw), ion)]))
  }

  /** The body of the innermost loop, step by step as the program runs it. */
  method ProcessPair(t: ScanTools, media: string, i: nat, fold: nat, ion: string, r: Replicate)
    returns (step: Result<Plot, Fault>)
    ensures step == PairStep(t, media, i, fold, ion, r)
  {
    if !(i < fold || (i >= fold && r.bestMetlinIon == ion)) {
      return Success(EmptyPlot);
    }
    if r.standardWellId !in t.wells {
      return Failure(UnresolvedWell(r.standardWellId));
    }
    var positiveWell := t.wells[r.standardWellId];
    var positiveScan := WellScan(positiveWell, positiveWell.chemical, positiveWell.chemical);
    var labels := t.writeScanData(positiveScan, MaxIntensity, {ion});
    var plateMetadata := SanitizeYeastMedia(positiveWell.media) + " " +
      (if positiveWell.concentration.None? then "" else positiveWell.concentration.value);
    var additionalInfo: string;
    if ion in r.analysisResults {
      var snrAndTime := "\n" + t.formatSnrTime(r.analysisResults[ion]);
      additionalInfo := "\n" + plateMetadata + " " + snrAndTime;
    } else {
      additionalInfo := "\n" + plateMetadata + " " + NoPeaksFound;
    }
    ghost var rawLabels := labels;
    labels := AppendToEach(labels, additionalInfo);
    assert additionalInfo == PositiveInfo(positiveWell, r.analysisResults, ion, t.formatSnrTime);
    assert labels == Suffixed(rawLabels, additionalInfo);
    var yMaxes := [t.maxIntensityForIon(positiveScan, ion)];
    var negativeLabels: seq<string> := [];
    if media == YeastMedia && (i >= fold && r.bestMetlinIon == ion) {
      if |r.negativeWellIds| == 0 {
        return Failure(NoNegativeWell);
      }
      var representative := r.negativeWellIds[0];
      if representative !in t.wells {
        return Failure(UnresolvedWell(representative));
      }
      var negativeWell := t.wells[representative];
      var negativeScan := WellScan(negativeWell, positiveWell.chemical, negativeWell.chemical);
      negativeLabels := t.writeScanData(negativeScan, MaxIntensity, {ion});
      yMaxes := yMaxes + [t.maxIntensityForIon(negativeScan, ion)];
      var negativePlateMetadata := SanitizeYeastMedia(negativeWell.media) + " " +
        (if negativeWell.concentration.None? then " " else negativeWell.concentration.value);
      var negativeInfo := "\n" + negativePlateMetadata + " " + NegativeControl;
      ghost var rawNegative := negativeLabels;
      negativeLabels := AppendToEach(negativeLabels, negativeInfo);
      assert negativeLabels == Suffixed(rawNegative, NegativeInfo(negativeWell));
      assert negativeScan == NegativeScan(positiveWell, negativeWell);
      assert yMaxes == [t.maxIntensityForIon(PositiveScan(positiveWell), ion), t.maxIntensityForIon(negativeScan, ion)];
    }
    step := Success(Plot(labels + negativeLabels, yMaxes));
    assert !WithNegativeControl(media, i, fold, ion, r) ==> labels + negativeLabels == labels;
  }

  // ---------------------------------------------------------------------------
  // The three nested loops, as functions threading the accumulated plot

  /** The results of one media group, for the ion at position i. */
  function ResultsFrom(t: ScanTools, media: string, i: nat, fold: nat, ion: string,
                       results: seq<Replicate>, acc: Plot): Result<Plot, Fault>
    decreases |results|
  {
    if results == [] then Success(acc)
    else match PairStep(t, media, i, fold, ion, results[0])
      case Failure(e) => Failure(e)
      case Success(p) => ResultsFrom(t, media, i, fold, ion, results[1..], Concat(acc, p))
  }

  /** All media groups, for the ion at position i. */
  function GroupsFrom(t: ScanTools, i: nat, fold: nat, ion: string,
                      groups: seq<MediaGroup>, acc: Plot): Result<Plot, Fault>
    decreases |groups|
  {
    if groups == [] then Success(acc)
    else match ResultsFrom(t, groups[0].media, i, fold, ion, groups[0].results, acc)
      case Failure(e) => Failure(e)
      case Success(a) => GroupsFrom(t, i, fold, ion, groups[1..], a)
  }

  /** The blank reference panel added after each universal ion. */
  function WithBlank(t: ScanTools, acc: Plot): Plot {
    Plot(acc.labels + t.writeScanData(BlankScan, 0.0, {}), acc.yMaxes + [0.0])
  }

  /** The ions from position i on. */
  function IonsFrom(t: ScanTools, ions: seq<string>, fold: nat, groups: seq<MediaGroup>,
                    i: nat, acc: Plot): Result<Plot, Fault>
    decreases |ions| - i
  {
    if i >= |ions| then Success(acc)
    else match GroupsFrom(t, i, fold, ions[i], groups, acc)
      case Failure(e) => Failure(e)
      case Success(a) => IonsFrom(t, ions, fold, groups, i + 1, if i < fold then WithBlank(t, a) else a)
  }

  /** The whole plot of one chemical. */
  function Assemble(t: ScanTools, ions: seq<string>, fold: nat, groups: seq<MediaGroup>): Result<Plot, Fault> {
    IonsFrom(t, ions, fold, groups, 0, EmptyPlot)
  }

  /** The triple loop that appends to graphLabels and yMaxList. */
  method AssembleTraces(t: ScanTools, ions: seq<string>, fold: nat, groups: seq<MediaGroup>)
    returns (res: Result<Plot, Fault>)
    ensures res == Assemble(t, ions, fold, groups)
  {
    var graphLabels: seq<string> := [];
    var yMaxList: seq<real> := [];
    var i := 0;
    while i < |ions|
      invariant 0 <= i <= |ions|
      invariant Assemble(t, ions, fold, groups) == IonsFrom(t, ions, fold, groups, i, Plot(graphLabels, yMaxList))
    {
      var ion := ions[i];
      ghost var atIon := Plot(graphLabels, yMaxList);
      var g := 0;
      while g < |groups|
        invariant 0 <= g <= |groups|
        invariant GroupsFrom(t, i, fold, ion, groups, atIon) == GroupsFrom(t, i, fold, ion, groups[g..], Plot(graphLabels, yMaxList))
      {
        var media := groups[g].media;
        var results := groups[g].results;
        ghost var atGroup := Plot(graphLabels, yMaxList);
        var k := 0;
        while k < |results|
          invariant 0 <= k <= |results|
          invariant ResultsFrom(t, media, i, fold, ion, results, atGroup) ==
                    ResultsFrom(t, media, i, fold, ion, results[k..], Plot(graphLabels, yMaxList))
        {
          var step := ProcessPair(t, media, i, fold, ion, results[k]);
          if step.Failure? {
            assert ResultsFrom(t, media, i, fold, ion, results, atGroup) == Failure(step.error);
            assert GroupsFrom(t, i, fold, ion, groups[g..], atGroup) == Failure(step.error);
            return Failure(step.error);
          }
          assert results[k..][1..] == results[k + 1..];
          graphLabels := graphLabels + step.value.labels;
          yMaxList := yMaxList + step.value.yMaxes;
          k := k + 1;
        }
        assert groups[g..][1..] == groups[g + 1..];
        g := g + 1;
      }
      if i < fold {
        graphLabels := graphLabels + t.writeScanData(BlankScan, 0.0, {});
        yMaxList := yMaxList + [0.0];
      }
      i := i + 1;
    }
    res := Success(Plot(graphLabels, yMaxList));
  }

  // ---------------------------------------------------------------------------
  // What one pair contributes

  /** A pair that is not drawn adds nothing. A drawn pair fails exactly when its positive
      well, or (when it needs a negative control) the first negative well id, does not
      resolve. Otherwise it adds the positive trace's maximum, followed immediately by
      the maximum of the negative control drawn from the first negative well when the
      control is required, and nothing more. */
  lemma PairStepOutcome(t: ScanTools, media: string, i: nat, fold: nat, ion: string, r: Replicate)
    ensures !Included(i, fold, ion, r) ==> PairStep(t, media, i, fold, ion, r) == Success(EmptyPlot)
    ensures Included(i, fold, ion, r) ==>
      (PairStep(t, media, i, fold, ion, r).Failure? <==>
        r.standardWellId !in t.wells ||
        (WithNegativeControl(media, i, fold, ion, r) &&
         (|r.negativeWellIds| == 0 || r.negativeWellIds[0] !in t.wells)))
    ensures Included(i, fold, ion, r) && PairStep(t, media, i, fold, ion, r).Success? ==>
      var p := PairStep(t, media, i, fold, ion, r).value;
      var pw := t.wells[r.standardWellId];
      && 1 <= |p.yMaxes| <= 2
      && p.yMaxes[0] == t.maxIntensityForIon(PositiveScan(pw), ion)
      && (|p.yMaxes| == 2 <==> WithNegativeControl(media, i, fold, ion, r))
      && (|p.yMaxes| == 2 ==>
            p.yMaxes[1] == t.maxIntensityForIon(NegativeScan(pw, t.wells[r.negativeWellIds[0]]), ion))
  {
  }

  predicate EndsWith(s: string, suffix: string) {
    |suffix| <= |s| && s[|s| - |suffix|..] == suffix
  }

  /** Every label writeScanData returns for the positive well gets the same plate
      annotation, ending in "No peaks found" when the result has no peak for the ion;
      a negative control adds one label per label writeScanData returned for the first
      negative well, each followed by that well's annotation and "Negative Control". */
  lemma PairLabels(t: ScanTools, media: string, i: nat, fold: nat, ion: string, r: Replicate)
    requires PairStep(t, media, i, fold, ion, r).Success?
    requires Included(i, fold, ion, r)
    ensures var p := PairStep(t, media, i, fold, ion, r).value;
      var pw := t.wells[r.standardWellId];
      var raw := t.writeScanData(PositiveScan(pw), MaxIntensity, {ion});
      var info := PositiveInfo(pw, r.analysisResults, ion, t.formatSnrTime);
      && |raw| <= |p.labels|
      && (forall k | 0 <= k < |raw| :: p.labels[k] == raw[k] + info)
      && (ion !in r.analysisResults ==> forall k | 0 <= k < |raw| :: EndsWith(p.labels[k], NoPeaksFound))
      && (WithNegativeControl(media, i, fold, ion, r) ==>
            && |r.negativeWellIds| > 0 && r.negativeWellIds[0] in t.wells
            && var nw := t.wells[r.negativeWellIds[0]];
               var negRaw := t.writeScanData(NegativeScan(pw, nw), MaxIntensity, {ion});
               && |p.labels| == |raw| + |negRaw|
               && (forall k | 0 <= k < |negRaw| :: p.labels[|raw| + k] == negRaw[k] + NegativeInfo(nw))
               && (forall k | |raw| <= k < |p.labels| :: EndsWith(p.labels[k], NegativeControl)))
      && (!WithNegativeControl(media, i, fold, ion, r) ==> |p.labels| == |raw|)
  {
    var p := PairStep(t, media, i, fold, ion, r).value;
    var pw := t.wells[r.standardWellId];
    var raw := t.writeScanData(PositiveScan(pw), MaxIntensity, {ion});
    var info := PositiveInfo(pw, r.analysisResults, ion, t.formatSnrTime);
    if ion !in r.analysisResults {
      forall k | 0 <= k < |raw|
        ensures EndsWith(p.labels[k], NoPeaksFound)
      {
        assert p.labels[k] == (raw[k] + ("\n" + PlateMetadata(pw, "") + " ")) + NoPeaksFound;
      }
    }
    if WithNegativeControl(media, i, fold, ion, r) {
      var nw := t.wells[r.negativeWellIds[0]];
      var negRaw := t.writeScanData(NegativeScan(pw, nw), MaxIntensity, {ion});
      forall k | |raw| <= k < |p.labels|
        ensures EndsWith(p.labels[k], NegativeControl)
      {
        assert p.labels[k] == (negRaw[k - |raw|] + ("\n" + PlateMetadata(nw, " ") + " ")) + NegativeControl;
      }
    }
  }

  // ---------------------------------------------------------------------------
  // How many traces and maxima the assembly produces

  /** The assumption under which labels and maxima line up: writeScanData returns one
      label per call. */
  ghost predicate OneLabelPerScan(t: ScanTools) {
    forall s: Scan, ceiling: real, ions: set<string> :: |t.writeScanData(s, ceiling, ions)| == 1
  }

  lemma PairStepCounts(t: ScanTools, media: string, i: nat, fold: nat, ion: string, r: Replicate)
    requires PairStep(t, media, i, fold, ion, r).Success?
    ensures var p := PairStep(t, media, i, fold, ion, r).value;
      && |p.yMaxes| == (if Included(i, fold, ion, r) then 1 else 0) +
                       (if WithNegativeControl(media, i, fold, ion, r) then 1 else 0)
      && (OneLabelPerScan(t) ==> |p.labels| == |p.yMaxes|)
  {
  }

  function PairsIn(i: nat, fold: nat, ion: string, results: seq<Replicate>): nat {
    if results == [] then 0
    else (if Included(i, fold, ion, results[0]) then 1 else 0) + PairsIn(i, fold, ion, results[1..])
  }

  function ControlsIn(media: string, i: nat, fold: nat, ion: string, results: seq<Replicate>): nat {
    if results == [] then 0
    else (if WithNegativeControl(media, i, fold, ion, results[0]) then 1 else 0) +
         ControlsIn(media, i, fold, ion, results[1..])
  }

  function PairsInGroups(i: nat, fold: nat, ion: string, groups: seq<MediaGroup>): nat {
    if groups == [] then 0
    else PairsIn(i, fold, ion, groups[0].results) + PairsInGroups(i, fold, ion, groups[1..])
  }

  function ControlsInGroups(i: nat, fold: nat, ion: string, groups: seq<MediaGroup>): nat {
    if groups == [] then 0
    else ControlsIn(groups[0].media, i, fold, ion, groups[0].results) + ControlsInGroups(i, fold, ion, groups[1..])
  }

  /** The number of included (ion, result) pairs from position i on. */
  function PairsFrom(ions: seq<string>, fold: nat, groups: seq<MediaGroup>, i: nat): nat
    decreases |ions| - i
  {
    if i >= |ions| then 0 else PairsInGroups(i, fold, ions[i], groups) + PairsFrom(ions, fold, groups, i + 1)
  }

  /** The number of negative-control traces from position i on. */
  function ControlsFrom(ions: seq<string>, fold: nat, groups: seq<MediaGroup>, i: nat): nat
    decreases |ions| - i
  {
    if i >= |ions| then 0 else ControlsInGroups(i, fold, ions[i], groups) + ControlsFrom(ions, fold, groups, i + 1)
  }

  lemma {:induction false} ResultsCounts(t: ScanTools, media: string, i: nat, fold: nat, ion: string,
                                         results: seq<Replicate>, acc: Plot, out: Plot)
    requires ResultsFrom(t, media, i, fold, ion, results, acc) == Success(out)
    ensures |out.yMaxes| == |acc.yMaxes| + PairsIn(i, fold, ion, results) + ControlsIn(media, i, fold, ion, results)
    ensures OneLabelPerScan(t) ==> |out.labels| - |acc.labels| == |out.yMaxes| - |acc.yMaxes|
    decreases |results|
  {
    if results != [] {
      PairStepCounts(t, media, i, fold, ion, results[0]);
      var p := PairStep(t, media, i, fold, ion, results[0]).value;
      ResultsCounts(t, media, i, fold, ion, results[1..], Concat(acc, p), out);
    }
  }

  lemma {:induction false} GroupsCounts(t: ScanTools, i: nat, fold: nat, ion: string,
                                        groups: seq<MediaGroup>, acc: Plot, out: Plot)
    requires GroupsFrom(t, i, fold, ion, groups, acc) == Success(out)
    ensures |out.yMaxes| == |acc.yMaxes| + PairsInGroups(i, fold, ion, groups) + ControlsInGroups(i, fold, ion, groups)
    ensures OneLabelPerScan(t) ==> |out.labels| - |acc.labels| == |out.yMaxes| - |acc.yMaxes|
    decreases |groups|
  {
    if groups != [] {
      var a := ResultsFrom(t, groups[0].media, i, fold, ion, groups[0].results, acc).value;
      ResultsCounts(t, groups[0].media, i, fold, ion, groups[0].results, acc, a);
      GroupsCounts(t, i, fold, ion, groups[1..], a, out);
    }
  }

  lemma {:induction false} IonsCounts(t: ScanTools, ions: seq<string>, fold: nat, groups: seq<MediaGroup>,
                                      i: nat, acc: Plot, out: Plot)
    requires i <= |ions|
    requires IonsFrom(t, ions, fold, groups, i, acc) == Success(out)
    ensures |out.yMaxes| == |acc.yMaxes| + PairsFrom(ions, fold, groups, i) + ControlsFrom(ions, fold, groups, i) +
                            (if i < fold then (if fold < |ions| then fold else |ions|) - i else 0)
    ensures OneLabelPerScan(t) ==> |out.labels| - |acc.labels| == |out.yMaxes| - |acc.yMaxes|
    decreases |ions| - i
  {
    if i < |ions| {
      var a := GroupsFrom(t, i, fold, ions[i], groups, acc).value;
      GroupsCounts(t, i, fold, ions[i], groups, acc, a);
      IonsCounts(t, ions, fold, groups, i + 1, if i < fold then WithBlank(t, a) else a, out);
    }
  }

  /** yMaxList ends with one entry per included pair, one per negative control and one
      blank per universal ion; when writeScanData returns one label per call, the labels
      and the maxima line up one to one. */
  lemma PlotLengths(t: ScanTools, ions: seq<string>, fold: nat, groups: seq<MediaGroup>, out: Plot)
    requires fold <= |ions|
    requires Assemble(t, ions, fold, groups) == Success(out)
    ensures |out.yMaxes| == PairsFrom(ions, fold, groups, 0) + ControlsFrom(ions, fold, groups, 0) + fold
    ensures OneLabelPerScan(t) ==> |out.labels| == |out.yMaxes|
  {
    IonsCounts(t, ions, fold, groups, 0, EmptyPlot, out);
  }

  // ---------------------------------------------------------------------------
  // How often one result is drawn

  /** The number of positions from i on at which the result is drawn. */
  function Appearances(ions: seq<string>, fold: nat, r: Replicate, i: nat): nat
    decreases |ions| - i
  {
    if i >= |ions| then 0
    else (if Included(i, fold, ions[i], r) then 1 else 0) + Appearances(ions, fold, r, i + 1)
  }

  lemma {:induction false} AppearancesFrom(ions: seq<string>, fold: nat, r: Replicate, i: nat)
    requires Distinct(ions) && fold <= |ions| && i <= |ions|
    ensures Appearances(ions, fold, r, i) ==
      (if i < fold then fold - i else 0) +
      (if r.bestMetlinIon in ions[(if i < fold then fold else i)..] then 1 else 0)
    decreases |ions| - i
  {
    if i < |ions| {
      AppearancesFrom(ions, fold, r, i + 1);
      if i >= fold {
        assert ions[i..] == [ions[i]] + ions[i + 1..];
        if r.bestMetlinIon == ions[i] {
          assert forall j | i + 1 <= j < |ions| :: ions[j] != ions[i];
          assert ions[i] !in ions[i + 1..];
        }
      }
    }
  }

  /** With a duplicate-free display order, a result is drawn once for every universal
      ion and once more exactly when its own best ion is in the tail. */
  lemma AppearancesCount(ions: seq<string>, fold: nat, r: Replicate)
    requires Distinct(ions) && fold <= |ions|
    ensures Appearances(ions, fold, r, 0) == fold + (if r.bestMetlinIon in ions[fold..] then 1 else 0)
  {
    AppearancesFrom(ions, fold, r, 0);
  }
}
