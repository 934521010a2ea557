/**
 * `DatasetDiagnosis` of `rabies/analysis_pkg/diagnosis_pkg/interfaces.py`: merges the
 * per-scan diagnosis records of a cohort, refuses cohorts of fewer than three scans,
 * stacks the scans' spatial features, and writes one QC figure and one one-row QC table
 * per prior component for each active feature family (dual regression always, dual ICA
 * when the scans carry dual-ICA maps, seed connectivity when seed priors are given).
 *
 * The statistics themselves (`otsu_scaling`, `spatial_crosscorrelations`, `analysis_QC`)
 * are not modelled; the model tracks which files are written, in which order, and which
 * error ends a run.
 */
module DatasetDiagnosisInterface {
  import opened Wrappers
  import opened Text
  import opened DiagnosisCommon

  const OutDirName := "dataset_diagnosis"
  const CrossCorrelationName := "/spatial_crosscorrelations.png"
  const SampleSizeError := ValueError("Cannot run statistics on a sample size smaller than 3, so an empty figure is generated.")
  /** The loop variable `spatial_info` read after a loop that ran zero times. */
  const UnboundSpatialInfo := UnboundLocalError("spatial_info")

  const DRFamily := "DR"
  const DualIcaFamily := "dual_ICA"
  const SeedFamily := "seed_FC"

  function Min(a: nat, b: nat): nat {
    if a <= b then a else b
  }

  /** `os.path.abspath('dataset_diagnosis')`. */
  function OutDir(cwd: string): string {
    Abspath(cwd, OutDirName)
  }

  /** Run from the root directory, the output directory is `/dataset_diagnosis`, with one separator. */
  lemma OutDirAtRoot()
    ensures OutDir("/") == "/dataset_diagnosis"
  {
  }

  function CrossCorrelationPath(outDir: string): string {
    outDir + CrossCorrelationName
  }

  // ---------------------------------------------------------------------------
  // Zipping and stacking the scans (lines 209-231)

  /** One element of `zip(merged_spatial_info, merged_analysis_dict, merged_file_dict)`. */
  datatype Scan = Scan(spatial: SpatialInfo, analysis: AnalysisDict, files: FileDict)

  /** Python's `zip` of the three merged lists: as long as the shortest of them. */
  function ZipScans(spatial: seq<SpatialInfo>, analysis: seq<AnalysisDict>, files: seq<FileDict>): (scans: seq<Scan>)
    ensures |scans| <= |spatial| && |scans| <= |analysis| && |scans| <= |files|
    ensures |scans| == |spatial| || |scans| == |analysis| || |scans| == |files|
    ensures forall k :: 0 <= k < |scans| ==> scans[k].spatial == spatial[k] && scans[k].analysis == analysis[k] && scans[k].files == files[k]
  {
    var n := Min(|spatial|, Min(|analysis|, |files|));
    seq(n, k requires 0 <= k < n => Scan(spatial[k], analysis[k], files[k]))
  }

  /** The lists the stacking loop builds, one entry per zipped scan. */
  datatype Stacks = Stacks(
    stdMaps: seq<Image>,
    veMaps: seq<Image>,
    drMaps: seq<seq<Image>>,
    dualIcaMaps: seq<seq<Image>>,
    tdofs: seq<real>,
    seedMaps: seq<seq<Image>>)

  /** Every seed map of a scan has the brain mask's shape, so that `image[volume_indices]` succeeds. */
  predicate SeedFilesMatch(files: seq<string>, mask: Image, load: string -> Image) {
    forall j :: 0 <= j < |files| ==> |load(files[j])| == |mask|
  }

  predicate AllSeedFilesMatch(scans: seq<Scan>, mask: Image, load: string -> Image) {
    forall k :: 0 <= k < |scans| ==> SeedFilesMatch(scans[k].analysis.seedMapFiles, mask, load)
  }

  /** The brain-mask voxels of each seed map of a scan. */
  function SeedVectors(files: seq<string>, mask: Image, load: string -> Image): (v: seq<Image>)
    requires SeedFilesMatch(files, mask, load)
    ensures |v| == |files|
  {
    seq(|files|, j requires 0 <= j < |files| => Select(load(files[j]), mask))
  }

  /** What the stacking loop produces, or the error raised by the first seed map of the wrong shape. */
  function Stacked(scans: seq<Scan>, mask: Image, load: string -> Image): Result<Stacks, PyError> {
    if !AllSeedFilesMatch(scans, mask, load) then Err(BooleanIndexMismatch)
    else Ok(Stacks(
      seq(|scans|, k requires 0 <= k < |scans| => scans[k].spatial.temporalStd),
      seq(|scans|, k requires 0 <= k < |scans| => scans[k].spatial.veSpatial),
      seq(|scans|, k requires 0 <= k < |scans| => scans[k].spatial.drBold),
      seq(|scans|, k requires 0 <= k < |scans| => scans[k].spatial.dualIcaMaps),
      seq(|scans|, k requires 0 <= k < |scans| => scans[k].files.crData.tdof),
      seq(|scans|, k requires 0 <= k < |scans| && SeedFilesMatch(scans[k].analysis.seedMapFiles, mask, load) =>
        SeedVectors(scans[k].analysis.seedMapFiles, mask, load))))
  }

  /**
   * Stacking keeps one entry per scan, in scan order, and every stacked seed map holds one
   * value per brain-mask voxel; it fails exactly when some seed map has another shape.
   */
  lemma StackedShape(scans: seq<Scan>, mask: Image, load: string -> Image)
    ensures Stacked(scans, mask, load).Ok? <==> AllSeedFilesMatch(scans, mask, load)
    ensures Stacked(scans, mask, load).Err? ==> Stacked(scans, mask, load).error == BooleanIndexMismatch
    ensures Stacked(scans, mask, load).Ok? ==>
      var st := Stacked(scans, mask, load).value;
      && |st.stdMaps| == |st.veMaps| == |st.drMaps| == |st.dualIcaMaps| == |st.tdofs| == |st.seedMaps| == |scans|
      && (forall k :: 0 <= k < |scans| ==> st.drMaps[k] == scans[k].spatial.drBold && st.dualIcaMaps[k] == scans[k].spatial.dualIcaMaps)
      && (forall k :: 0 <= k < |scans| ==> st.tdofs[k] == scans[k].files.crData.tdof)
      && (forall k :: 0 <= k < |scans| ==> |st.seedMaps[k]| == |scans[k].analysis.seedMapFiles|)
      && (forall k, j :: 0 <= k < |scans| && 0 <= j < |st.seedMaps[k]| ==> |st.seedMaps[k][j]| == |MaskIndices(mask)|)
  {
    if AllSeedFilesMatch(scans, mask, load) {
      var st := Stacked(scans, mask, load).value;
      forall k, j | 0 <= k < |scans| && 0 <= j < |st.seedMaps[k]|
        ensures |st.seedMaps[k][j]| == |MaskIndices(mask)|
      {
        var files := scans[k].analysis.seedMapFiles;
        assert st.seedMaps[k][j] == Select(load(files[j]), mask);
        SelectAtMaskIndices(load(files[j]), mask);
      }
    }
  }

  /** The stacking loop of lines 215-226. */
  method StackScans(scans: seq<Scan>, mask: Image, load: string -> Image) returns (r: Result<Stacks, PyError>)
    ensures r == Stacked(scans, mask, load)
  {
    var std, ve, dr, ica, tdof, seeds := [], [], [], [], [], [];
    var i := 0;
    while i < |scans|
      invariant 0 <= i <= |scans|
      invariant |std| == |ve| == |dr| == |ica| == |tdof| == |seeds| == i
      invariant forall k :: 0 <= k < i ==>
        && std[k] == scans[k].spatial.temporalStd
        && ve[k] == scans[k].spatial.veSpatial
        && dr[k] == scans[k].spatial.drBold
        && ica[k] == scans[k].spatial.dualIcaMaps
        && tdof[k] == scans[k].files.crData.tdof
      invariant forall k :: 0 <= k < i ==>
        SeedFilesMatch(scans[k].analysis.seedMapFiles, mask, load) && seeds[k] == SeedVectors(scans[k].analysis.seedMapFiles, mask, load)
    {
      var scan := scans[i];
      std := std + [scan.spatial.temporalStd];
      ve := ve + [scan.spatial.veSpatial];
      dr := dr + [scan.spatial.drBold];
      ica := ica + [scan.spatial.dualIcaMaps];
      tdof := tdof + [scan.files.crData.tdof];
      var files := scan.analysis.seedMapFiles;
      var seedList := [];
      var j := 0;
      while j < |files|
        invariant 0 <= j <= |files|
        invariant |seedList| == j
        invariant forall m :: 0 <= m < j ==> |load(files[m])| == |mask| && seedList[m] == Select(load(files[m]), mask)
      {
        var image := load(files[j]);
        if |image| != |mask| {
          assert !SeedFilesMatch(scans[i].analysis.seedMapFiles, mask, load);
          return Err(BooleanIndexMismatch);
        }
        seedList := seedList + [Select(image, mask)];
        j := j + 1;
      }
      assert seedList == SeedVectors(files, mask, load);
      seeds := seeds + [seedList];
      i := i + 1;
    }
    assert AllSeedFilesMatch(scans, mask, load);
    var st := Stacked(scans, mask, load).value;
    assert std == st.stdMaps && ve == st.veMaps && dr == st.drMaps;
    assert ica == st.dualIcaMaps && tdof == st.tdofs && seeds == st.seedMaps;
    r := Ok(Stacks(std, ve, dr, ica, tdof, seeds));
  }

  // ---------------------------------------------------------------------------
  // The seed priors (lines 250-261)

  /** Every seed prior, resampled onto the brain mask's grid, has the mask's shape. */
  predicate SeedPriorsMatch(priors: seq<string>, maskFile: string, mask: Image, resample: (string, string) -> Image) {
    forall j :: 0 <= j < |priors| ==> |resample(priors[j], maskFile)| == |mask|
  }

  /** The resampling loop: the brain-mask voxels of each resampled seed prior, in order. */
  method ResampleSeedPriors(priors: seq<string>, maskFile: string, mask: Image, resample: (string, string) -> Image)
    returns (r: Result<seq<Image>, PyError>)
    ensures r.Ok? <==> SeedPriorsMatch(priors, maskFile, mask, resample)
    ensures r.Err? ==> r.error == BooleanIndexMismatch
    ensures r.Ok? ==> |r.value| == |priors|
    ensures r.Ok? ==> forall j :: 0 <= j < |priors| ==>
      r.value[j] == Select(resample(priors[j], maskFile), mask) && |r.value[j]| == |MaskIndices(mask)|
  {
    var priorMaps := [];
    var j := 0;
    while j < |priors|
      invariant 0 <= j <= |priors|
      invariant |priorMaps| == j
      invariant forall m :: 0 <= m < j ==> |resample(priors[m], maskFile)| == |mask|
      invariant forall m :: 0 <= m < j ==>
        priorMaps[m] == Select(resample(priors[m], maskFile), mask) && |priorMaps[m]| == |MaskIndices(mask)|
    {
      var masked := MaskedVoxels(resample(priors[j], maskFile), mask);
      if masked.Err? {
        return Err(masked.error);
      }
      priorMaps := priorMaps + [masked.value];
      j := j + 1;
    }
    r := Ok(priorMaps);
  }

  // ---------------------------------------------------------------------------
  // The whole run as a function of its inputs

  /** The interface's inputs: the per-subject lists, the mask bundle and the seed priors. */
  datatype DatasetInputs = DatasetInputs(
    spatialInfoList: seq<seq<SpatialInfo>>,
    analysisDictList: seq<seq<AnalysisDict>>,
    fileDictList: seq<seq<FileDict>>,
    maskFileDict: map<string, string>,
    seedPriorMaps: seq<string>)

  /**
   * The foreign calls of a run: the working directory, reading an image's voxels
   * (`nb.load(...).dataobj`), and resampling a seed prior onto the grid of a mask file
   * (`sitk.Resample`).
   */
  datatype Io = Io(cwd: string, load: string -> Image, resample: (string, string) -> Image)

  /** The outcome of a run and every file written or directory created, in order. */
  datatype DiagnosisRun = DiagnosisRun(outcome: Outcome<PyError>, outputs: seq<Output>)

  function Scans(inp: DatasetInputs): seq<Scan> {
    ZipScans(Flatten(inp.spatialInfoList), Flatten(inp.analysisDictList), Flatten(inp.fileDictList))
  }

  /** The number of priors: the rows of the prior maps of the last zipped scan (0 when none). */
  function PriorCount(inp: DatasetInputs): nat {
    var scans := Scans(inp);
    if scans == [] then 0 else |scans[|scans| - 1].spatial.priorMaps|
  }

  /** Whether the stacked dual-ICA maps have a non-empty axis 1. */
  function HasDualIca(inp: DatasetInputs): bool {
    var scans := Scans(inp);
    scans != [] && |scans[0].spatial.dualIcaMaps| > 0
  }

  /** np.array of the stacked feature lists succeeds. */
  predicate StacksRectangular(st: Stacks) {
    Rectangular(st.stdMaps) && Rectangular(st.veMaps) && Rectangular3(st.drMaps) && Rectangular3(st.dualIcaMaps)
  }

  /** A step that writes nothing and raises nothing. */
  const Done := DiagnosisRun(Pass, [])

  /** A step that raises `e` before writing anything. */
  function Raise(e: PyError): DiagnosisRun {
    DiagnosisRun(Fail(e), [])
  }

  /** Step `a`, then step `b` unless `a` raised: the files of both, and the outcome of the last step run. */
  function Then(a: DiagnosisRun, b: DiagnosisRun): DiagnosisRun {
    if a.outcome.Fail? then a else DiagnosisRun(b.outcome, a.outputs + b.outputs)
  }

  /**
   * One family's loop over `count` priors, reading index `i` of axis 1 of a stack that has
   * `axis1` entries there: the files of every index before the first one out of bounds.
   */
  function FamilyQc(outDir: string, family: string, count: nat, axis1: nat): DiagnosisRun {
    DiagnosisRun(if count <= axis1 then Pass else Fail(AxisIndexError), FamilyOutputs(outDir, family, Min(count, axis1)))
  }

  /**
   * Lines 250-268: the seed-connectivity QC, run only when seed priors are given.
   * `seedPriorsOk` says whether every resampled seed prior has the brain mask's shape.
   */
  function SeedQc(outDir: string, seedMaps: seq<seq<Image>>, seedCount: nat, seedPriorsOk: bool): DiagnosisRun {
    if seedCount == 0 then Done
    else if !seedPriorsOk then Raise(BooleanIndexMismatch)
    else if !Rectangular3(seedMaps) then Raise(InhomogeneousShape)
    else FamilyQc(outDir, SeedFamily, seedCount, Axis1(seedMaps))
  }

  /**
   * Lines 233-246: the dual-regression QC, then the dual-ICA QC when the stacked dual-ICA
   * maps have a non-empty axis 1. `priors` is the number of rows of the last scan's prior
   * maps; both loops run over all of them.
   */
  function MapQc(outDir: string, st: Stacks, priors: nat): DiagnosisRun {
    Then(FamilyQc(outDir, DRFamily, priors, Axis1(st.drMaps)),
         if Axis1(st.dualIcaMaps) > 0 then FamilyQc(outDir, DualIcaFamily, priors, Axis1(st.dualIcaMaps)) else Done)
  }

  /** Lines 233-268, from the stacked lists on. */
  function PerPriorQc(outDir: string, st: Stacks, priors: nat, seedCount: nat, seedPriorsOk: bool): DiagnosisRun {
    Then(MapQc(outDir, st, priors), SeedQc(outDir, st.seedMaps, seedCount, seedPriorsOk))
  }

  /** Lines 209-268, after the cross-correlation figure: stacking the zipped scans, then the per-prior QC. */
  function StackedQc(outDir: string, scans: seq<Scan>, maskFile: string, mask: Image, seedPriors: seq<string>, io: Io): DiagnosisRun {
    match Stacked(scans, mask, io.load)
    case Err(e) => Raise(e)
    case Ok(st) =>
      if !StacksRectangular(st) then Raise(InhomogeneousShape)
      else if scans == [] then Raise(UnboundSpatialInfo)
      else
        var seedsOk := SeedPriorsMatch(seedPriors, maskFile, mask, io.resample);
        PerPriorQc(outDir, st, |scans[|scans| - 1].spatial.priorMaps|, |seedPriors|, seedsOk)
  }

  /**
   * Lines 196-268, once the output directory exists: the two mask-bundle keys, the
   * cross-correlation figure, then stacking and the per-prior QC.
   */
  function AfterOutDir(outDir: string, inp: DatasetInputs, io: Io): DiagnosisRun {
    if TemplateFileKey !in inp.maskFileDict then Raise(KeyError(TemplateFileKey))
    else if BrainMaskKey !in inp.maskFileDict then Raise(KeyError(BrainMaskKey))
    else
      var maskFile := inp.maskFileDict[BrainMaskKey];
      Then(DiagnosisRun(Pass, [Png(CrossCorrelationPath(outDir))]),
           StackedQc(outDir, Scans(inp), maskFile, io.load(maskFile), inp.seedPriorMaps, io))
  }

  /** Lines 189-268 of `_run_interface`. */
  function Diagnose(inp: DatasetInputs, io: Io): DiagnosisRun {
    if |Flatten(inp.spatialInfoList)| < 3 then Raise(SampleSizeError)
    else
      var outDir := OutDir(io.cwd);
      Then(DiagnosisRun(Pass, [Directory(outDir)]), AfterOutDir(outDir, inp, io))
  }

  /**
   * Every file a run can write, in order: the output directory, the cross-correlation
   * figure, then a figure and a one-row table per prior for dual regression, for dual ICA
   * when present, and per seed prior for seed connectivity.
   */
  function Plan(outDir: string, priors: nat, dualIca: bool, seedCount: nat): seq<Output> {
    [Directory(outDir), Png(CrossCorrelationPath(outDir))]
      + FamilyOutputs(outDir, DRFamily, priors)
      + (if dualIca then FamilyOutputs(outDir, DualIcaFamily, priors) else [])
      + FamilyOutputs(outDir, SeedFamily, seedCount)
  }

  function InputPlan(inp: DatasetInputs, io: Io): seq<Output> {
    Plan(OutDir(io.cwd), PriorCount(inp), HasDualIca(inp), |inp.seedPriorMaps|)
  }

  // ---------------------------------------------------------------------------
  // The interface

  /** The interface's state: its output trait and the files it has written. */
  class DatasetDiagnosis {
    var datasetDiagnosis: string
    ghost var written: seq<Output>

    constructor ()
      ensures datasetDiagnosis == "" && written == []
    {
      datasetDiagnosis := "";
      written := [];
    }

    /** One family's loop: figure and table of each prior until the stacked axis 1 runs out. */
    method WriteFamily(outDir: string, family: string, count: nat, axis1: nat) returns (r: Outcome<PyError>)
      modifies this
      ensures r == FamilyQc(outDir, family, count, axis1).outcome
      ensures written == old(written) + FamilyQc(outDir, family, count, axis1).outputs
      ensures datasetDiagnosis == old(datasetDiagnosis)
    {
      var i := 0;
      while i < count
        invariant 0 <= i <= count && i <= axis1
        invariant written == old(written) + FamilyOutputs(outDir, family, i)
        invariant datasetDiagnosis == old(datasetDiagnosis)
      {
        if i >= axis1 {
          assert FamilyQc(outDir, family, count, axis1) == DiagnosisRun(Fail(AxisIndexError), FamilyOutputs(outDir, family, i));
          return Fail(AxisIndexError);
        }
        var files := [Png(QcMapsPath(outDir, family, i)), Csv(QcStatsPath(outDir, family, i), 1)];
        AppendAssoc(old(written), FamilyOutputs(outDir, family, i), files);
        written := written + files;
        i := i + 1;
      }
      assert FamilyQc(outDir, family, count, axis1) == DiagnosisRun(Pass, FamilyOutputs(outDir, family, count));
      r := Pass;
    }

    /** Lines 250-268: the seed-connectivity QC. */
    method RunSeedQc(outDir: string, seedMaps: seq<seq<Image>>, seedPriors: seq<string>, maskFile: string, mask: Image,
                     resample: (string, string) -> Image)
      returns (r: Outcome<PyError>)
      modifies this
      ensures var qc := SeedQc(outDir, seedMaps, |seedPriors|, SeedPriorsMatch(seedPriors, maskFile, mask, resample));
        r == qc.outcome && written == old(written) + qc.outputs
      ensures datasetDiagnosis == old(datasetDiagnosis)
    {
      if |seedPriors| == 0 {
        return Pass;
      }
      var priorMaps := ResampleSeedPriors(seedPriors, maskFile, mask, resample);
      if priorMaps.Err? {
        return Fail(priorMaps.error);
      }
      if !Rectangular3(seedMaps) {
        return Fail(InhomogeneousShape);
      }
      r := WriteFamily(outDir, SeedFamily, |priorMaps.value|, Axis1(seedMaps));
    }

    /** Lines 233-246: the dual-regression and dual-ICA loops. */
    method RunMapQc(outDir: string, st: Stacks, priors: nat) returns (r: Outcome<PyError>)
      modifies this
      ensures r == MapQc(outDir, st, priors).outcome
      ensures written == old(written) + MapQc(outDir, st, priors).outputs
      ensures datasetDiagnosis == old(datasetDiagnosis)
    {
      var dr := FamilyQc(outDir, DRFamily, priors, Axis1(st.drMaps));
      r := WriteFamily(outDir, DRFamily, priors, Axis1(st.drMaps));
      if r.Pass? && Axis1(st.dualIcaMaps) > 0 {
        var ica := FamilyQc(outDir, DualIcaFamily, priors, Axis1(st.dualIcaMaps));
        r := WriteFamily(outDir, DualIcaFamily, priors, Axis1(st.dualIcaMaps));
        assert MapQc(outDir, st, priors) == DiagnosisRun(ica.outcome, dr.outputs + ica.outputs);
        AppendAssoc(old(written), dr.outputs, ica.outputs);
      } else {
        assert MapQc(outDir, st, priors) == DiagnosisRun(dr.outcome, dr.outputs + []);
        assert dr.outputs + [] == dr.outputs;
      }
    }

    /** Lines 209-268: stacking, then the per-prior QC. */
    method RunStacked(outDir: string, scans: seq<Scan>, maskFile: string, mask: Image, seedPriors: seq<string>, io: Io)
      returns (r: Outcome<PyError>)
      modifies this
      ensures var qc := StackedQc(outDir, scans, maskFile, mask, seedPriors, io);
        r == qc.outcome && written == old(written) + qc.outputs
      ensures datasetDiagnosis == old(datasetDiagnosis)
    {
      var stacked := StackScans(scans, mask, io.load);
      if stacked.Err? {
        return Fail(stacked.error);
      }
      if !StacksRectangular(stacked.value) {
        return Fail(InhomogeneousShape);
      }
      if scans == [] {
        return Fail(UnboundSpatialInfo);
      }
      var numPriors := |scans[|scans| - 1].spatial.priorMaps|;
      r := RunMapQc(outDir, stacked.value, numPriors);
      if r.Pass? {
        r := RunSeedQc(outDir, stacked.value.seedMaps, seedPriors, maskFile, mask, io.resample);
      }
    }

    /** Lines 196-268: from the mask bundle to the end of the run. */
    method RunAfterOutDir(outDir: string, inp: DatasetInputs, io: Io) returns (r: Outcome<PyError>)
      modifies this
      ensures r == AfterOutDir(outDir, inp, io).outcome
      ensures written == old(written) + AfterOutDir(outDir, inp, io).outputs
      ensures datasetDiagnosis == old(datasetDiagnosis)
    {
      if TemplateFileKey !in inp.maskFileDict {
        return Fail(KeyError(TemplateFileKey));
      }
      if BrainMaskKey !in inp.maskFileDict {
        return Fail(KeyError(BrainMaskKey));
      }
      var maskFile := inp.maskFileDict[BrainMaskKey];
      var brainMask := io.load(maskFile);
      ghost var before := written;
      written := written + [Png(CrossCorrelationPath(outDir))];
      var scans := ZipScans(Flatten(inp.spatialInfoList), Flatten(inp.analysisDictList), Flatten(inp.fileDictList));
      r := RunStacked(outDir, scans, maskFile, brainMask, inp.seedPriorMaps, io);
      AppendAssoc(before, [Png(CrossCorrelationPath(outDir))], StackedQc(outDir, scans, maskFile, brainMask, inp.seedPriorMaps, io).outputs);
    }

    /** `_run_interface`, proved to behave as `Diagnose`. */
    method Run(inp: DatasetInputs, io: Io) returns (r: Outcome<PyError>)
      modifies this
      ensures r == Diagnose(inp, io).outcome
      ensures written == old(written) + Diagnose(inp, io).outputs
      ensures r.Pass? ==> datasetDiagnosis == OutDir(io.cwd)
      ensures r.Fail? ==> datasetDiagnosis == old(datasetDiagnosis)
    {
      var mergedSpatialInfo := Flatten(inp.spatialInfoList);
      if |mergedSpatialInfo| < 3 {
        assert Diagnose(inp, io) == Raise(SampleSizeError);
        assert written == old(written) + [];
        return Fail(SampleSizeError);
      }
      var outDir := OutDir(io.cwd);
      written := written + [Directory(outDir)];
      r := RunAfterOutDir(outDir, inp, io);
      AppendAssoc(old(written), [Directory(outDir)], AfterOutDir(outDir, inp, io).outputs);
      if r.Pass? {
        datasetDiagnosis := outDir;
      }
    }
  }
}
