/**
 * `ScanDiagnosis` of `rabies/analysis_pkg/diagnosis_pkg/interfaces.py`: converts the
 * prior index lists to integers, hands the scan to the feature extraction, and saves the
 * two diagnosis figures under names derived from the BOLD file.
 */
module ScanDiagnosisInterface {
  import opened Wrappers
  import opened Text
  import opened DiagnosisCommon

  // ---------------------------------------------------------------------------
  // [int(i) for i in idx]

  /** An element of `prior_bold_idx` / `prior_confound_idx` as a workflow may pass it. */
  datatype IndexValue = IntIndex(n: int) | FloatIndex(x: real) | TextIndex(text: string)

  /** Python's `int(x)` of a float: the fractional part dropped, toward zero. */
  function TruncateTowardZero(x: real): (n: int)
    ensures 0.0 <= x ==> 0 <= n && n as real <= x < n as real + 1.0
    ensures x < 0.0 ==> n <= 0 && n as real - 1.0 < x <= n as real
  {
    if x >= 0.0 then x.Floor else -((-x).Floor)
  }

  /** Python's `int(v)`; the parsing of text is the interpreter's and is a parameter (`None` when it raises). */
  function ToInt(v: IndexValue, parseInt: string -> Option<int>): Option<int> {
    match v
    case IntIndex(n) => Some(n)
    case FloatIndex(x) => Some(TruncateTowardZero(x))
    case TextIndex(t) => parseInt(t)
  }

  const InvalidLiteral := "invalid literal for int() with base 10: "

  /** The ValueError `int()` raises for a text it rejects, quoting the text as `repr` does. */
  function InvalidLiteralError(text: string): PyError {
    ValueError(InvalidLiteral + "'" + text + "'")
  }

  /** The position of the first element `int` rejects, if any. */
  function FirstRejected(xs: seq<IndexValue>, parseInt: string -> Option<int>): (k: Option<nat>)
    ensures k.None? <==> forall j :: 0 <= j < |xs| ==> ToInt(xs[j], parseInt).Some?
    ensures k.Some? ==> k.value < |xs| && xs[k.value].TextIndex? && ToInt(xs[k.value], parseInt).None?
    ensures k.Some? ==> forall j :: 0 <= j < k.value ==> ToInt(xs[j], parseInt).Some?
    decreases |xs|
  {
    if xs == [] then None
    else if ToInt(xs[0], parseInt).None? then Some(0)
    else match FirstRejected(xs[1..], parseInt)
      case None => None
      case Some(k) => Some(k + 1)
  }

  /** The list comprehension `[int(i) for i in xs]`, which raises at the first element `int` rejects. */
  function ConvertIndices(xs: seq<IndexValue>, parseInt: string -> Option<int>): (r: Result<seq<int>, PyError>)
    ensures r.Ok? <==> FirstRejected(xs, parseInt).None?
    ensures r.Ok? ==> |r.value| == |xs| && forall k :: 0 <= k < |xs| ==> r.value[k] == ToInt(xs[k], parseInt).value
    ensures r.Err? ==> r.error == InvalidLiteralError(xs[FirstRejected(xs, parseInt).value].text)
    decreases |xs|
  {
    if xs == [] then Ok([])
    else match ToInt(xs[0], parseInt)
      case None => Err(InvalidLiteralError(xs[0].text))
      case Some(n) =>
        var rest := ConvertIndices(xs[1..], parseInt);
        if rest.Err? then rest else Ok([n] + rest.value)
  }

  /** The elements of a list of integers. */
  function IntIndices(ns: seq<int>): (xs: seq<IndexValue>)
    ensures |xs| == |ns|
  {
    seq(|ns|, k requires 0 <= k < |ns| => IntIndex(ns[k]))
  }

  /** Indices already given as integers pass through unchanged. */
  lemma ConvertIntegersUnchanged(ns: seq<int>, parseInt: string -> Option<int>)
    ensures ConvertIndices(IntIndices(ns), parseInt) == Ok(ns)
  {
    var r := ConvertIndices(IntIndices(ns), parseInt);
    assert r.Ok?;
    assert r.value == ns;
  }

  /** Lines 125-126: the signal indices are converted first, then the confound indices. */
  function BothIndexLists(priorBoldIdx: seq<IndexValue>, priorConfoundIdx: seq<IndexValue>, parseInt: string -> Option<int>)
    : (r: Result<(seq<int>, seq<int>), PyError>)
    ensures r.Ok? <==> ConvertIndices(priorBoldIdx, parseInt).Ok? && ConvertIndices(priorConfoundIdx, parseInt).Ok?
    ensures r.Ok? ==> r.value == (ConvertIndices(priorBoldIdx, parseInt).value, ConvertIndices(priorConfoundIdx, parseInt).value)
    ensures r.Err? && ConvertIndices(priorBoldIdx, parseInt).Err? ==> r.error == ConvertIndices(priorBoldIdx, parseInt).error
    ensures r.Err? && ConvertIndices(priorBoldIdx, parseInt).Ok? ==> r.error == ConvertIndices(priorConfoundIdx, parseInt).error
  {
    match ConvertIndices(priorBoldIdx, parseInt)
    case Err(e) => Err(e)
    case Ok(bold) =>
      match ConvertIndices(priorConfoundIdx, parseInt)
      case Err(e) => Err(e)
      case Ok(confound) => Ok((bold, confound))
  }

  // ---------------------------------------------------------------------------
  // Figure names

  /** `pathlib.Path(p).name`: the last component, trailing separators ignored. */
  function PathName(p: string): (r: string)
    ensures '/' !in r
  {
    AfterLast(StripTrailing(p, '/'), '/')
  }

  /** `Path(bold_file).name.rsplit(".nii")[0]`: the file name up to its first ".nii". */
  function FilenameTemplate(boldFile: string): (r: string)
    ensures '/' !in r
    ensures r <= PathName(boldFile)
    ensures forall i :: 0 <= i < |r| ==> !OccursAt(PathName(boldFile), ".nii", i)
  {
    var name := PathName(boldFile);
    var r := BeforeFirst(name, ".nii");
    assert forall k :: 0 <= k < |r| ==> r[k] == name[k];
    r
  }

  const TemporalFigureSuffix := "_temporal_diagnosis.png"
  const SpatialFigureSuffix := "_spatial_diagnosis.png"

  /** `os.path.abspath(filename_template)`: the figures go to the working directory. */
  function FigureStem(cwd: string, boldFile: string): string {
    Abspath(cwd, FilenameTemplate(boldFile))
  }

  /** The temporal diagnosis figure of a scan. */
  function TemporalFigure(cwd: string, boldFile: string): string {
    FigureStem(cwd, boldFile) + TemporalFigureSuffix
  }

  /** The spatial diagnosis figure of a scan. */
  function SpatialFigure(cwd: string, boldFile: string): string {
    FigureStem(cwd, boldFile) + SpatialFigureSuffix
  }

  /** The name of `dir/name` is `name` when `name` is non-empty and holds no separator. */
  lemma PathNameOfJoin(dir: string, name: string)
    requires name != [] && '/' !in name
    ensures PathName(dir + "/" + name) == name
  {
    var s := dir + "/" + name;
    assert s[|s| - 1] == name[|name| - 1];
    assert StripTrailing(s, '/') == s;
    AfterLastAfterSeparator(dir, name, '/');
  }

  /** The file name template of `dir/<stem>.nii<ext>` is `<stem>` when no ".nii" starts inside the stem. */
  lemma FilenameTemplateOfBoldFile(dir: string, stem: string, ext: string)
    requires stem != [] && '/' !in stem && '/' !in ext
    requires forall i :: 0 <= i < |stem| ==> !OccursAt(stem + ".nii" + ext, ".nii", i)
    ensures FilenameTemplate(dir + "/" + stem + ".nii" + ext) == stem
  {
    var name := stem + ".nii" + ext;
    AppendAssoc(dir + "/" + stem, ".nii", ext);
    AppendAssoc(dir + "/", stem, ".nii" + ext);
    AppendAssoc(stem, ".nii", ext);
    assert OccursAt(name, ".nii", |stem|) by {
      assert name[|stem|..|stem| + 4] == ".nii";
    }
    assert '/' !in name by {
      assert '/' !in ".nii";
    }
    FilenameTemplateOfName(dir, name, |stem|);
    assert name[..|stem|] == stem;
  }

  lemma FilenameTemplateOfName(dir: string, name: string, n: nat)
    requires name != [] && '/' !in name
    requires OccursAt(name, ".nii", n)
    requires forall i :: 0 <= i < n ==> !OccursAt(name, ".nii", i)
    ensures FilenameTemplate(dir + "/" + name) == name[..n]
  {
    PathNameOfJoin(dir, name);
    BeforeFirstAt(name, ".nii", n);
  }

  /**
   * For `dir/<stem>.nii<ext>`, with the stem non-empty and free of separators and of an
   * earlier ".nii", the figures are `<cwd>/<stem>_temporal_diagnosis.png` and
   * `<cwd>/<stem>_spatial_diagnosis.png` (`/<stem>_…` when `cwd` is the root).
   */
  lemma FigureStemOfBoldFile(cwd: string, dir: string, stem: string, ext: string)
    requires stem != [] && '/' !in stem && '/' !in ext
    requires forall i :: 0 <= i < |stem| ==> !OccursAt(stem + ".nii" + ext, ".nii", i)
    ensures FigureStem(cwd, dir + "/" + stem + ".nii" + ext) == (if cwd == "/" then "" else cwd) + "/" + stem
  {
    FilenameTemplateOfBoldFile(dir, stem, ext);
    assert stem[0] != '/';
  }

  /** Scans with the same file name in different directories get the same figures. */
  lemma FigureStemIgnoresDirectory(cwd: string, dir1: string, dir2: string, name: string)
    requires name != [] && '/' !in name
    ensures FigureStem(cwd, dir1 + "/" + name) == FigureStem(cwd, dir2 + "/" + name)
  {
    PathNameOfJoin(dir1, name);
    PathNameOfJoin(dir2, name);
  }

  /** The temporal and the spatial figure of a scan never have the same name. */
  lemma FiguresDistinct(cwd: string, boldFile: string)
    ensures TemporalFigure(cwd, boldFile) != SpatialFigure(cwd, boldFile)
  {
    assert |TemporalFigure(cwd, boldFile)| != |SpatialFigure(cwd, boldFile)|;
  }

  // ---------------------------------------------------------------------------
  // The interface

  /** `temporal_info` of one scan: named timecourses. */
  datatype TemporalInfo = TemporalInfo(features: map<string, seq<real>>)

  /**
   * The interface's state: its output traits and the figure files it has saved.
   * `process_data` (feature extraction) is a parameter of `Run`, with the mask files, the
   * analysis dictionary and the dual-ICA count it also receives held fixed; the drawing
   * of the figures is not modelled.
   */
  class ScanDiagnosis {
    var figureTemporalDiagnosis: string
    var figureSpatialDiagnosis: string
    var temporalInfo: TemporalInfo
    var spatialInfo: SpatialInfo
    ghost var written: seq<Output>

    constructor ()
      ensures written == []
    {
      figureTemporalDiagnosis := "";
      figureSpatialDiagnosis := "";
      temporalInfo := TemporalInfo(map[]);
      spatialInfo := SpatialInfo([], [], [], [], []);
      written := [];
    }

    /** `_run_interface`. */
    method Run(fileDict: FileDict, priorBoldIdx: seq<IndexValue>, priorConfoundIdx: seq<IndexValue>, cwd: string,
               parseInt: string -> Option<int>,
               processData: (FileDict, seq<int>, seq<int>) -> (TemporalInfo, SpatialInfo))
      returns (r: Outcome<PyError>)
      modifies this
      ensures BothIndexLists(priorBoldIdx, priorConfoundIdx, parseInt).Err? ==>
        r == Fail(BothIndexLists(priorBoldIdx, priorConfoundIdx, parseInt).error) && unchanged(this)
      ensures BothIndexLists(priorBoldIdx, priorConfoundIdx, parseInt).Ok? ==>
        var idx := BothIndexLists(priorBoldIdx, priorConfoundIdx, parseInt).value;
        && r == Pass
        && (temporalInfo, spatialInfo) == processData(fileDict, idx.0, idx.1)
        && figureTemporalDiagnosis == TemporalFigure(cwd, fileDict.boldFile)
        && figureSpatialDiagnosis == SpatialFigure(cwd, fileDict.boldFile)
        && written == old(written) + [Png(figureTemporalDiagnosis), Png(figureSpatialDiagnosis)]
    {
      var converted := BothIndexLists(priorBoldIdx, priorConfoundIdx, parseInt);
      if converted.Err? {
        return Fail(converted.error);
      }
      var features := processData(fileDict, converted.value.0, converted.value.1);
      Record(features, TemporalFigure(cwd, fileDict.boldFile), SpatialFigure(cwd, fileDict.boldFile));
      r := Pass;
    }

    /** Saves the two figures and sets the output traits. */
    method Record(features: (TemporalInfo, SpatialInfo), temporalFigure: string, spatialFigure: string)
      modifies this
      ensures (temporalInfo, spatialInfo) == features
      ensures figureTemporalDiagnosis == temporalFigure && figureSpatialDiagnosis == spatialFigure
      ensures written == old(written) + [Png(temporalFigure), Png(spatialFigure)]
    {
      written := written + [Png(temporalFigure), Png(spatialFigure)];
      figureTemporalDiagnosis := temporalFigure;
      figureSpatialDiagnosis := spatialFigure;
      temporalInfo := features.0;
      spatialInfo := features.1;
    }
  }
}
