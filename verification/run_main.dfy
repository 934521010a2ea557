/**
 * The decisions `rabies/run_main.py` takes before any workflow is built: where the
 * default template files live, whether they must be installed, how command-line
 * options are validated and rewritten, and how the input directory tree is listed.
 * File-system state, images and the `float()` parser are parameters.
 */
module RunMain {
  import opened Wrappers
  import opened Text

  // ---------------------------------------------------------------------------
  // Location of the default template files

  const XdgDataHome := "XDG_DATA_HOME"
  const Home := "HOME"

  /**
   * The module-level `rabies_path`: `$XDG_DATA_HOME/rabies` when that variable is set,
   * otherwise `$HOME/.local/share/rabies`; with neither set, looking up HOME raises.
   */
  function RabiesPath(env: map<string, string>): (r: Result<string, PyError>)
    ensures r.Ok? <==> XdgDataHome in env || Home in env
    ensures XdgDataHome in env ==> r == Ok(env[XdgDataHome] + "/rabies")
    ensures XdgDataHome !in env && Home in env ==> r == Ok(env[Home] + "/.local/share/rabies")
    ensures r.Err? ==> r.error == KeyError(Home)
    ensures r.Ok? ==> |r.value| >= 7 && r.value[|r.value| - 7..] == "/rabies"
  {
    if XdgDataHome in env then Ok(env[XdgDataHome] + "/rabies")
    else if Home in env then Ok(env[Home] + "/.local/share/rabies")
    else Err(KeyError(Home))
  }

  function DefaultPath(rabiesPath: string, name: string): string {
    rabiesPath + "/" + name
  }

  /** Under one directory, distinct names give distinct paths. */
  lemma DefaultPathInjective(rabiesPath: string, a: string, b: string)
    ensures DefaultPath(rabiesPath, a) == DefaultPath(rabiesPath, b) <==> a == b
  {
    var n := |rabiesPath| + 1;
    assert DefaultPath(rabiesPath, a)[n..] == a;
    assert DefaultPath(rabiesPath, b)[n..] == b;
  }

  /** The fourteen files the default-template installer provides, in the order they are checked. */
  const DefaultTemplateFiles: seq<string> := [
    "DSURQE_40micron_average.nii.gz",
    "DSURQE_40micron_mask.nii.gz",
    "DSURQE_40micron_eroded_WM_mask.nii.gz",
    "DSURQE_40micron_eroded_CSF_mask.nii.gz",
    "DSURQE_40micron_labels.nii.gz",
    "vascular_mask.nii.gz",
    "melodic_IC.nii.gz",
    "EPI_template.nii.gz",
    "EPI_brain_mask.nii.gz",
    "EPI_WM_mask.nii.gz",
    "EPI_CSF_mask.nii.gz",
    "EPI_vascular_mask.nii.gz",
    "EPI_labels.nii.gz",
    "melodic_IC_resampled.nii.gz"
  ]

  /**
   * The `if ... elif ...` chain of `install_DSURQE`: the position of the first file of
   * `names` that is not an existing regular file under `rabiesPath`, if any.
   */
  function FirstMissing(rabiesPath: string, names: seq<string>, isFile: set<string>): (r: Option<nat>)
    ensures r.Some? ==> r.value < |names| && DefaultPath(rabiesPath, names[r.value]) !in isFile
    ensures r.Some? ==> forall j :: 0 <= j < r.value ==> DefaultPath(rabiesPath, names[j]) in isFile
    ensures r.None? <==> forall j :: 0 <= j < |names| ==> DefaultPath(rabiesPath, names[j]) in isFile
    decreases |names|
  {
    if names == [] then None
    else if DefaultPath(rabiesPath, names[0]) !in isFile then Some(0)
    else match FirstMissing(rabiesPath, names[1..], isFile)
      case None => None
      case Some(k) => Some(k + 1)
  }

  const InstallScript := "install_DSURQE.sh"

  /**
   * The commands `install_DSURQE` runs: the installer script, given `rabiesPath`, exactly
   * when at least one of the fourteen default files is missing, and nothing otherwise.
   */
  function InstallCommands(rabiesPath: string, isFile: set<string>): (cmds: seq<string>)
    ensures cmds == [] <==> forall j :: 0 <= j < |DefaultTemplateFiles| ==> DefaultPath(rabiesPath, DefaultTemplateFiles[j]) in isFile
    ensures cmds != [] <==> exists j :: 0 <= j < |DefaultTemplateFiles| && DefaultPath(rabiesPath, DefaultTemplateFiles[j]) !in isFile
    ensures cmds != [] ==> cmds == [InstallScript + " " + rabiesPath]
  {
    if FirstMissing(rabiesPath, DefaultTemplateFiles, isFile).Some? then [InstallScript + " " + rabiesPath] else []
  }

  // ---------------------------------------------------------------------------
  // Validators

  /** A voxel value that is neither 0 nor 1. */
  predicate NonBinary(v: real) {
    v != 0.0 && v != 1.0
  }

  /** `((array != 1) * (array != 0)).sum()`: how many voxels are neither 0 nor 1. */
  function NonBinaryCount(voxels: seq<real>): (n: nat)
    ensures n <= |voxels|
    ensures n > 0 <==> exists i :: 0 <= i < |voxels| && NonBinary(voxels[i])
    decreases |voxels|
  {
    if voxels == [] then 0
    else
      var rest := NonBinaryCount(voxels[1..]);
      assert forall i :: 1 <= i < |voxels| ==> voxels[i] == voxels[1..][i - 1];
      (if NonBinary(voxels[0]) then 1 else 0) + rest
  }

  /** `check_binary_masks` on the voxels of the image read from `mask`. */
  function CheckBinaryMasks(mask: string, voxels: seq<real>): (r: Outcome<PyError>)
    ensures r.Fail? <==> exists i :: 0 <= i < |voxels| && NonBinary(voxels[i])
    ensures r.Fail? ==> r.error == ValueError("The file " + mask + " is not a binary mask. Non-binary masks cannot be processed.")
  {
    if NonBinaryCount(voxels) > 0 then
      Fail(ValueError("The file " + mask + " is not a binary mask. Non-binary masks cannot be processed."))
    else Pass
  }

  /** The header geometry of an image; its voxel values are irrelevant here. */
  datatype Geometry = Geometry(origin: seq<real>, direction: seq<real>, spacing: seq<real>)

  /**
   * `check_template_overlap`, with the condition parsed as Python parses it:
   * `(not origins_equal) and directions_equal`. Equal origins never raise, differing
   * directions never raise, and the spacing is never consulted.
   */
  function CheckTemplateOverlap(template: string, mask: string, templateGeometry: Geometry, maskGeometry: Geometry): (r: Outcome<PyError>)
    ensures templateGeometry.origin == maskGeometry.origin ==> r == Pass
    ensures templateGeometry.direction != maskGeometry.direction ==> r == Pass
    ensures templateGeometry.origin != maskGeometry.origin && templateGeometry.direction == maskGeometry.direction ==>
      r == Fail(ValueError("The file " + mask + " does not appear to overlap with provided template " + template + "."))
  {
    if !(templateGeometry.origin == maskGeometry.origin) && templateGeometry.direction == maskGeometry.direction then
      Fail(ValueError("The file " + mask + " does not appear to overlap with provided template " + template + "."))
    else Pass
  }

  /** Only equality of the origins and of the directions matters, never the spacing. */
  lemma OverlapIgnoresSpacing(template: string, mask: string, t: Geometry, m: Geometry, s1: seq<real>, s2: seq<real>)
    ensures CheckTemplateOverlap(template, mask, t.(spacing := s1), m.(spacing := s2)) == CheckTemplateOverlap(template, mask, t, m)
  {
  }

  const InputsDefined := "inputs_defined"

  const ResamplingFormatHint := " must follow the format 'dim1xdim2xdim3', e.g. '0.1x0.1x0.1', (in mm) following the RAS axis convention."

  function ResamplingError(resampling: string): PyError {
    ValueError("Resampling " + resampling + ResamplingFormatHint)
  }

  /** Every piece parses as a number. */
  predicate AllNumbers(pieces: seq<string>, isFloat: string -> bool) {
    forall k :: 0 <= k < |pieces| ==> isFloat(pieces[k])
  }

  /**
   * `check_resampling_syntax`; `isFloat` stands for "Python's `float()` accepts this
   * text". Accepted: the literal "inputs_defined", or a string with exactly two 'x'
   * whose three pieces all parse as numbers.
   */
  function CheckResamplingSyntax(resampling: string, isFloat: string -> bool): (r: Outcome<PyError>)
    ensures r.Pass? <==>
      resampling == InputsDefined ||
      (CountChar(resampling, 'x') == 2 && AllNumbers(Split(resampling, 'x'), isFloat))
    ensures r.Fail? ==> r.error == ResamplingError(resampling)
  {
    if resampling == InputsDefined then Pass
    else if 'x' !in resampling then Fail(ResamplingError(resampling))
    else
      var shape := Split(resampling, 'x');
      if |shape| != 3 then Fail(ResamplingError(resampling))
      else if !(isFloat(shape[0]) && isFloat(shape[1]) && isFloat(shape[2])) then Fail(ResamplingError(resampling))
      else Pass
  }

  /** A string other than "inputs_defined" that has no 'x', or splits into two or four pieces, is rejected. */
  lemma ResamplingShapeRejected(resampling: string, isFloat: string -> bool)
    requires resampling != InputsDefined
    requires 'x' !in resampling || |Split(resampling, 'x')| == 2 || |Split(resampling, 'x')| == 4
    ensures CheckResamplingSyntax(resampling, isFloat) == Fail(ResamplingError(resampling))
  {
  }

  /** Three 'x'-free pieces joined by 'x' are accepted exactly when each piece parses as a number. */
  lemma ResamplingFromPieces(a: string, b: string, c: string, isFloat: string -> bool)
    requires 'x' !in a && 'x' !in b && 'x' !in c
    ensures CheckResamplingSyntax(a + "x" + b + "x" + c, isFloat).Pass? <==> isFloat(a) && isFloat(b) && isFloat(c)
  {
    var s := a + "x" + b + "x" + c;
    assert Join([a, b, c], 'x') == s by {
      assert Join([a, b, c], 'x') == a + ['x'] + Join([b, c], 'x');
      assert [a, b, c][1..] == [b, c];
      assert [b, c][1..] == [c];
    }
    SplitJoin([a, b, c], 'x');
    assert s != InputsDefined by {
      assert 'x' in s by { assert s[|a|] == 'x'; }
      assert 'x' !in InputsDefined;
    }
  }

  // ---------------------------------------------------------------------------
  // --data_type

  /** The four SimpleITK pixel types selectable with --data_type. */
  datatype PixelType = Int16 | Int32 | Float32 | Float64

  function PixelTypeName(t: PixelType): string {
    match t
    case Int16 => "int16"
    case Int32 => "int32"
    case Float32 => "float32"
    case Float64 => "float64"
  }

  const InvalidDataType := ValueError("Invalid --data_type provided.")

  /** The --data_type mapping: the four names select their pixel type, any other text raises. */
  function ParseDataType(name: string): (r: Result<PixelType, PyError>)
    ensures r.Ok? <==> name == "int16" || name == "int32" || name == "float32" || name == "float64"
    ensures r.Ok? ==> PixelTypeName(r.value) == name
    ensures r.Err? ==> r.error == InvalidDataType
  {
    if name == "int16" then Ok(Int16)
    else if name == "int32" then Ok(Int32)
    else if name == "float32" then Ok(Float32)
    else if name == "float64" then Ok(Float64)
    else Err(InvalidDataType)
  }

  /** Each pixel type is selected by its own name, so the four names select four distinct types. */
  lemma DataTypeRoundTrip(t: PixelType)
    ensures ParseDataType(PixelTypeName(t)) == Ok(t)
  {
  }

  // ---------------------------------------------------------------------------
  // --bold_only default substitution and the --brain_extraction check

  /** An option whose DSURQE default is replaced by an EPI file under --bold_only. */
  datatype BoldOnlyDefault = BoldOnlyDefault(option: string, anatomical: string, epi: string)

  const AnatTemplateDefault := BoldOnlyDefault("--anat_template", "DSURQE_40micron_average.nii.gz", "EPI_template.nii.gz")
  const BrainMaskDefault := BoldOnlyDefault("--brain_mask", "DSURQE_40micron_mask.nii.gz", "EPI_brain_mask.nii.gz")
  const WMMaskDefault := BoldOnlyDefault("--WM_mask", "DSURQE_40micron_eroded_WM_mask.nii.gz", "EPI_WM_mask.nii.gz")
  const CSFMaskDefault := BoldOnlyDefault("--CSF_mask", "DSURQE_40micron_eroded_CSF_mask.nii.gz", "EPI_CSF_mask.nii.gz")
  const VascularMaskDefault := BoldOnlyDefault("--vascular_mask", "vascular_mask.nii.gz", "EPI_vascular_mask.nii.gz")
  const LabelsDefault := BoldOnlyDefault("--labels", "DSURQE_40micron_labels.nii.gz", "EPI_labels.nii.gz")
  const PriorMapsDefault := BoldOnlyDefault("--prior_maps", "melodic_IC.nii.gz", "melodic_IC_resampled.nii.gz")

  const BoldOnlyDefaults := [AnatTemplateDefault, BrainMaskDefault, WMMaskDefault, CSFMaskDefault,
                             VascularMaskDefault, LabelsDefault, PriorMapsDefault]

  /**
   * One step of the --bold_only rewriting: a value still equal to the default path is
   * replaced by the EPI path and one log line is emitted; any other value is kept.
   */
  function BoldOnlySubstitute(rabiesPath: string, d: BoldOnlyDefault, current: string): (r: (string, seq<string>))
    ensures current != DefaultPath(rabiesPath, d.anatomical) ==> r == (current, [])
    ensures current == DefaultPath(rabiesPath, d.anatomical) ==>
      r.0 == DefaultPath(rabiesPath, d.epi) &&
      r.1 == ["With --bold_only, default " + d.option + " changed to " + DefaultPath(rabiesPath, d.epi)]
  {
    if current == DefaultPath(rabiesPath, d.anatomical) then
      var file := DefaultPath(rabiesPath, d.epi);
      (file, ["With --bold_only, default " + d.option + " changed to " + file])
    else (current, [])
  }

  /** Substituting again changes nothing: the EPI path is never itself a default. */
  lemma BoldOnlyIdempotent(rabiesPath: string, d: BoldOnlyDefault, current: string)
    requires d.anatomical != d.epi
    ensures var once := BoldOnlySubstitute(rabiesPath, d, current).0;
      BoldOnlySubstitute(rabiesPath, d, once) == (once, [])
  {
    DefaultPathInjective(rabiesPath, d.anatomical, d.epi);
  }

  /** Every default the --bold_only rewriting compares against or substitutes is a file the installer provides. */
  lemma BoldOnlyFilesInstalled(d: BoldOnlyDefault)
    requires d in BoldOnlyDefaults
    ensures d.anatomical in DefaultTemplateFiles && d.epi in DefaultTemplateFiles && d.anatomical != d.epi
  {
  }

  /**
   * The log of the --bold_only step: the line of each option that was rewritten, in the
   * order of the source; `priorMaps` is absent when there are no analysis options.
   */
  function BoldOnlyLog(rabiesPath: string, anatTemplate: string, brainMask: string, wmMask: string, csfMask: string,
                       vascularMask: string, labels: string, priorMaps: Option<string>): (log: seq<string>)
    ensures |log| <= 7
  {
    BoldOnlySubstitute(rabiesPath, AnatTemplateDefault, anatTemplate).1
      + BoldOnlySubstitute(rabiesPath, BrainMaskDefault, brainMask).1
      + BoldOnlySubstitute(rabiesPath, WMMaskDefault, wmMask).1
      + BoldOnlySubstitute(rabiesPath, CSFMaskDefault, csfMask).1
      + BoldOnlySubstitute(rabiesPath, VascularMaskDefault, vascularMask).1
      + BoldOnlySubstitute(rabiesPath, LabelsDefault, labels).1
      + (if priorMaps.Some? then BoldOnlySubstitute(rabiesPath, PriorMapsDefault, priorMaps.value).1 else [])
  }

  /** Nothing is logged exactly when no option holds its DSURQE default. */
  lemma BoldOnlyLogEmpty(rabiesPath: string, anatTemplate: string, brainMask: string, wmMask: string, csfMask: string,
                         vascularMask: string, labels: string, priorMaps: Option<string>)
    ensures BoldOnlyLog(rabiesPath, anatTemplate, brainMask, wmMask, csfMask, vascularMask, labels, priorMaps) == [] <==>
      && anatTemplate != DefaultPath(rabiesPath, AnatTemplateDefault.anatomical)
      && brainMask != DefaultPath(rabiesPath, BrainMaskDefault.anatomical)
      && wmMask != DefaultPath(rabiesPath, WMMaskDefault.anatomical)
      && csfMask != DefaultPath(rabiesPath, CSFMaskDefault.anatomical)
      && vascularMask != DefaultPath(rabiesPath, VascularMaskDefault.anatomical)
      && labels != DefaultPath(rabiesPath, LabelsDefault.anatomical)
      && (priorMaps.Some? ==> priorMaps.value != DefaultPath(rabiesPath, PriorMapsDefault.anatomical))
  {
    var a := BoldOnlySubstitute(rabiesPath, AnatTemplateDefault, anatTemplate).1;
    var b := BoldOnlySubstitute(rabiesPath, BrainMaskDefault, brainMask).1;
    var c := BoldOnlySubstitute(rabiesPath, WMMaskDefault, wmMask).1;
    var d := BoldOnlySubstitute(rabiesPath, CSFMaskDefault, csfMask).1;
    var e := BoldOnlySubstitute(rabiesPath, VascularMaskDefault, vascularMask).1;
    var f := BoldOnlySubstitute(rabiesPath, LabelsDefault, labels).1;
    var g := if priorMaps.Some? then BoldOnlySubstitute(rabiesPath, PriorMapsDefault, priorMaps.value).1 else [];
    assert |BoldOnlyLog(rabiesPath, anatTemplate, brainMask, wmMask, csfMask, vascularMask, labels, priorMaps)|
        == |a| + |b| + |c| + |d| + |e| + |f| + |g|;
  }

  const BrainExtractionError := ValueError("To use --brain_extraction, you must select either --commonspace_masking or --coreg_masking.")

  /** --brain_extraction needs --commonspace_masking or --coreg_masking. */
  function CheckBrainExtraction(brainExtraction: bool, commonspaceMasking: bool, coregMasking: bool): (r: Outcome<PyError>)
    ensures r.Fail? <==> brainExtraction && !commonspaceMasking && !coregMasking
    ensures r.Fail? ==> r.error == BrainExtractionError
  {
    if brainExtraction && !(commonspaceMasking || coregMasking) then
      Fail(BrainExtractionError)
    else Pass
  }

  /** --data_type as parsed from the command line, or the pixel type it was rewritten to. */
  datatype DataTypeSetting = Named(text: string) | Converted(pixel: PixelType)

  /** The preprocessing options `preprocess` reads and rewrites in place. */
  class PreprocessOptions {
    var dataType: DataTypeSetting
    var anatTemplate: string
    var brainMask: string
    var wmMask: string
    var csfMask: string
    var vascularMask: string
    var labels: string
    var boldOnly: bool
    var brainExtraction: bool
    var commonspaceMasking: bool
    var coregMasking: bool

    constructor (dataType: string, anatTemplate: string, brainMask: string, wmMask: string, csfMask: string,
                 vascularMask: string, labels: string, boldOnly: bool, brainExtraction: bool,
                 commonspaceMasking: bool, coregMasking: bool)
      ensures this.dataType == Named(dataType)
      ensures this.anatTemplate == anatTemplate && this.brainMask == brainMask && this.wmMask == wmMask
      ensures this.csfMask == csfMask && this.vascularMask == vascularMask && this.labels == labels
      ensures this.boldOnly == boldOnly && this.brainExtraction == brainExtraction
      ensures this.commonspaceMasking == commonspaceMasking && this.coregMasking == coregMasking
    {
      this.dataType := Named(dataType);
      this.anatTemplate, this.brainMask, this.wmMask := anatTemplate, brainMask, wmMask;
      this.csfMask, this.vascularMask, this.labels := csfMask, vascularMask, labels;
      this.boldOnly, this.brainExtraction := boldOnly, brainExtraction;
      this.commonspaceMasking, this.coregMasking := commonspaceMasking, coregMasking;
    }
  }

  /** The analysis options; only --prior_maps is rewritten during preprocessing. */
  class AnalysisOptions {
    var priorMaps: string

    constructor (priorMaps: string)
      ensures this.priorMaps == priorMaps
    {
      this.priorMaps := priorMaps;
    }
  }

  /** The value an option has after the --bold_only step. */
  function AfterBoldOnly(boldOnly: bool, rabiesPath: string, d: BoldOnlyDefault, current: string): string {
    if boldOnly then BoldOnlySubstitute(rabiesPath, d, current).0 else current
  }

  /** The --bold_only substitutions, option by option in the order of the source. */
  method ApplyBoldOnly(opts: PreprocessOptions, analysisOpts: AnalysisOptions?, rabiesPath: string) returns (log: seq<string>)
    modifies opts, analysisOpts
    ensures opts.anatTemplate == BoldOnlySubstitute(rabiesPath, AnatTemplateDefault, old(opts.anatTemplate)).0
    ensures opts.brainMask == BoldOnlySubstitute(rabiesPath, BrainMaskDefault, old(opts.brainMask)).0
    ensures opts.wmMask == BoldOnlySubstitute(rabiesPath, WMMaskDefault, old(opts.wmMask)).0
    ensures opts.csfMask == BoldOnlySubstitute(rabiesPath, CSFMaskDefault, old(opts.csfMask)).0
    ensures opts.vascularMask == BoldOnlySubstitute(rabiesPath, VascularMaskDefault, old(opts.vascularMask)).0
    ensures opts.labels == BoldOnlySubstitute(rabiesPath, LabelsDefault, old(opts.labels)).0
    ensures analysisOpts != null ==>
      analysisOpts.priorMaps == BoldOnlySubstitute(rabiesPath, PriorMapsDefault, old(analysisOpts.priorMaps)).0
    ensures log == BoldOnlyLog(rabiesPath, old(opts.anatTemplate), old(opts.brainMask), old(opts.wmMask), old(opts.csfMask),
                               old(opts.vascularMask), old(opts.labels),
                               if analysisOpts != null then Some(old(analysisOpts.priorMaps)) else None)
    ensures opts.dataType == old(opts.dataType) && opts.boldOnly == old(opts.boldOnly)
    ensures opts.brainExtraction == old(opts.brainExtraction)
    ensures opts.commonspaceMasking == old(opts.commonspaceMasking) && opts.coregMasking == old(opts.coregMasking)
  {
    var anat := BoldOnlySubstitute(rabiesPath, AnatTemplateDefault, opts.anatTemplate);
    var brain := BoldOnlySubstitute(rabiesPath, BrainMaskDefault, opts.brainMask);
    var wm := BoldOnlySubstitute(rabiesPath, WMMaskDefault, opts.wmMask);
    var csf := BoldOnlySubstitute(rabiesPath, CSFMaskDefault, opts.csfMask);
    var vascular := BoldOnlySubstitute(rabiesPath, VascularMaskDefault, opts.vascularMask);
    var labels := BoldOnlySubstitute(rabiesPath, LabelsDefault, opts.labels);
    opts.anatTemplate, opts.brainMask, opts.wmMask := anat.0, brain.0, wm.0;
    opts.csfMask, opts.vascularMask, opts.labels := csf.0, vascular.0, labels.0;
    log := anat.1 + brain.1 + wm.1 + csf.1 + vascular.1 + labels.1;
    if analysisOpts != null {
      var prior := BoldOnlySubstitute(rabiesPath, PriorMapsDefault, analysisOpts.priorMaps);
      analysisOpts.priorMaps, log := prior.0, log + prior.1;
      assert log == BoldOnlyLog(rabiesPath, old(opts.anatTemplate), old(opts.brainMask), old(opts.wmMask), old(opts.csfMask),
                                old(opts.vascularMask), old(opts.labels), Some(old(analysisOpts.priorMaps)));
    } else {
      assert log == BoldOnlyLog(rabiesPath, old(opts.anatTemplate), old(opts.brainMask), old(opts.wmMask), old(opts.csfMask),
                                old(opts.vascularMask), old(opts.labels), None);
    }
  }

  /**
   * The option handling at the start of `preprocess`, in its order: --data_type is
   * converted (an unknown name raises before anything is changed); under --bold_only each
   * option still at its DSURQE default is rewritten to the EPI file, and --prior_maps too
   * when analysis options are given; finally --brain_extraction is checked. Log lines
   * are returned in the order they are emitted.
   */
  method ApplyPreprocessOptions(opts: PreprocessOptions, analysisOpts: AnalysisOptions?, rabiesPath: string)
    returns (r: Outcome<PyError>, log: seq<string>)
    requires opts.dataType.Named?
    modifies opts, analysisOpts
    ensures ParseDataType(old(opts.dataType.text)).Err? ==>
      r == Fail(InvalidDataType) && log == [] && unchanged(opts) && (analysisOpts != null ==> unchanged(analysisOpts))
    ensures ParseDataType(old(opts.dataType.text)).Ok? ==>
      && opts.dataType == Converted(ParseDataType(old(opts.dataType.text)).value)
      && opts.anatTemplate == AfterBoldOnly(old(opts.boldOnly), rabiesPath, AnatTemplateDefault, old(opts.anatTemplate))
      && opts.brainMask == AfterBoldOnly(old(opts.boldOnly), rabiesPath, BrainMaskDefault, old(opts.brainMask))
      && opts.wmMask == AfterBoldOnly(old(opts.boldOnly), rabiesPath, WMMaskDefault, old(opts.wmMask))
      && opts.csfMask == AfterBoldOnly(old(opts.boldOnly), rabiesPath, CSFMaskDefault, old(opts.csfMask))
      && opts.vascularMask == AfterBoldOnly(old(opts.boldOnly), rabiesPath, VascularMaskDefault, old(opts.vascularMask))
      && opts.labels == AfterBoldOnly(old(opts.boldOnly), rabiesPath, LabelsDefault, old(opts.labels))
      && (analysisOpts != null ==>
            analysisOpts.priorMaps == AfterBoldOnly(old(opts.boldOnly), rabiesPath, PriorMapsDefault, old(analysisOpts.priorMaps)))
      && r == CheckBrainExtraction(old(opts.brainExtraction), old(opts.commonspaceMasking), old(opts.coregMasking))
    ensures opts.boldOnly == old(opts.boldOnly) && opts.brainExtraction == old(opts.brainExtraction)
    ensures opts.commonspaceMasking == old(opts.commonspaceMasking) && opts.coregMasking == old(opts.coregMasking)
    ensures !old(opts.boldOnly) ==> log == []
    ensures ParseDataType(old(opts.dataType.text)).Ok? && old(opts.boldOnly) ==>
      log == BoldOnlyLog(rabiesPath, old(opts.anatTemplate), old(opts.brainMask), old(opts.wmMask), old(opts.csfMask),
                         old(opts.vascularMask), old(opts.labels),
                         if analysisOpts != null then Some(old(analysisOpts.priorMaps)) else None)
  {
    log := [];
    var parsed := ParseDataType(opts.dataType.text);
    if parsed.Err? {
      return Fail(parsed.error), log;
    }
    opts.dataType := Converted(parsed.value);

    if opts.boldOnly {
      log := ApplyBoldOnly(opts, analysisOpts, rabiesPath);
    }

    r := CheckBrainExtraction(opts.brainExtraction, opts.commonspaceMasking, opts.coregMasking);
  }
}
