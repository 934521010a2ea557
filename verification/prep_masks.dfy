/**
 * `PrepMasks` of `rabies/analysis_pkg/diagnosis_pkg/interfaces.py`: builds the mask
 * bundle (`mask_file_dict`) every diagnosis step shares, from the first subject's mask
 * files. Image resampling (`resample_image_spacing`, `resample_mask`, `resample_IC_file`)
 * and the edge-mask computation are not modelled beyond the files they name or write:
 * the two resamplers that return file names are parameters.
 */
module PrepMasksInterface {
  import opened Wrappers
  import opened Text
  import opened DiagnosisCommon
  import RunMain

  // Keys of the per-subject mask dictionaries the preprocessing produces
  const MaskFileKey := "mask_file"
  const WMMaskFileKey := "WM_mask_file"
  const CSFMaskFileKey := "CSF_mask_file"
  const AnatTemplateKey := "preprocess_anat_template"

  // Files written in the working directory, and the hemisphere masks installed with the atlas
  const DisplayTemplateName := "display_template.nii.gz"
  const EdgeMaskName := "edge_mask.nii.gz"
  const RightHemAtlas := "/DSURQE_40micron_right_hem_mask.nii.gz"
  const LeftHemAtlas := "/DSURQE_40micron_left_hem_mask.nii.gz"

  /** Python's error for `merged[0]` on an empty list. */
  const EmptyListIndex := IndexError("list index out of range")

  /** What a run yields: the bundle or the error raised, and the files written before either. */
  datatype MaskRun = MaskRun(bundle: Result<map<string, string>, PyError>, outputs: seq<Output>)

  /** The first key of the four a mask dictionary is read at that it lacks, in reading order. */
  function MissingMaskKey(d: map<string, string>): (r: Option<string>)
    ensures r.None? <==> MaskFileKey in d && WMMaskFileKey in d && CSFMaskFileKey in d && AnatTemplateKey in d
    ensures r.Some? ==> r.value !in d
    ensures r == Some(MaskFileKey) <==> MaskFileKey !in d
    ensures r == Some(WMMaskFileKey) <==> MaskFileKey in d && WMMaskFileKey !in d
    ensures r == Some(CSFMaskFileKey) <==> MaskFileKey in d && WMMaskFileKey in d && CSFMaskFileKey !in d
    ensures r == Some(AnatTemplateKey) <==>
      MaskFileKey in d && WMMaskFileKey in d && CSFMaskFileKey in d && AnatTemplateKey !in d
  {
    if MaskFileKey !in d then Some(MaskFileKey)
    else if WMMaskFileKey !in d then Some(WMMaskFileKey)
    else if CSFMaskFileKey !in d then Some(CSFMaskFileKey)
    else if AnatTemplateKey !in d then Some(AnatTemplateKey)
    else None
  }

  /** The hemisphere masks: resampled from the installed atlas with `DSURQE_regions`, placeholders otherwise. */
  function HemisphereMasks(dsurqeRegions: bool, rabiesPath: string, brainMask: string,
                           resampleMask: (string, string) -> string): (string, string)
  {
    if dsurqeRegions then (resampleMask(rabiesPath + RightHemAtlas, brainMask), resampleMask(rabiesPath + LeftHemAtlas, brainMask))
    else ("", "")
  }

  /** The bundle assembled at lines 67-68. */
  function Bundle(d: map<string, string>, cwd: string, hemispheres: (string, string), priorMaps: string): map<string, string>
    requires MaskFileKey in d && WMMaskFileKey in d && CSFMaskFileKey in d
  {
    map[TemplateFileKey := Abspath(cwd, DisplayTemplateName),
        BrainMaskKey := d[MaskFileKey],
        WMMaskKey := d[WMMaskFileKey],
        CSFMaskKey := d[CSFMaskFileKey],
        EdgeMaskKey := Abspath(cwd, EdgeMaskName),
        RightHemMaskKey := hemispheres.0,
        LeftHemMaskKey := hemispheres.1,
        PriorMapsKey := priorMaps]
  }

  /**
   * `_run_interface` as a function of its inputs: the environment, the working directory
   * and the two resamplers that return file names are parameters.
   */
  function PrepareMasks(maskDictList: seq<seq<map<string, string>>>, priorMaps: string, dsurqeRegions: bool,
                        env: map<string, string>, cwd: string,
                        resampleMask: (string, string) -> string, resampleIC: (string, string) -> string): (run: MaskRun)
    ensures run.bundle.Ok? <==>
      && Flatten(maskDictList) != []
      && MissingMaskKey(Flatten(maskDictList)[0]).None?
      && (dsurqeRegions ==> RunMain.RabiesPath(env).Ok?)
    ensures Flatten(maskDictList) == [] ==> run == MaskRun(Err(EmptyListIndex), [])
    ensures Flatten(maskDictList) != [] && MissingMaskKey(Flatten(maskDictList)[0]).Some? ==>
      run == MaskRun(Err(KeyError(MissingMaskKey(Flatten(maskDictList)[0]).value)), [])
    ensures run.bundle.Err? && run.outputs != [] ==>
      dsurqeRegions && run == MaskRun(Err(KeyError(RunMain.Home)), [Nifti(Abspath(cwd, DisplayTemplateName))])
    ensures run.bundle.Ok? ==>
      var d := Flatten(maskDictList)[0];
      && run.bundle.value.Keys == BundleKeys
      && run.bundle.value[BrainMaskKey] == d[MaskFileKey]
      && run.bundle.value[WMMaskKey] == d[WMMaskFileKey]
      && run.bundle.value[CSFMaskKey] == d[CSFMaskFileKey]
      && run.bundle.value[PriorMapsKey] == resampleIC(priorMaps, d[MaskFileKey])
      && run.bundle.value[TemplateFileKey] == Abspath(cwd, DisplayTemplateName)
      && run.bundle.value[EdgeMaskKey] == Abspath(cwd, EdgeMaskName)
      && run.outputs == [Nifti(run.bundle.value[TemplateFileKey]), Nifti(run.bundle.value[EdgeMaskKey])]
    ensures run.bundle.Ok? && !dsurqeRegions ==>
      run.bundle.value[RightHemMaskKey] == "" && run.bundle.value[LeftHemMaskKey] == ""
    ensures run.bundle.Ok? && dsurqeRegions ==>
      var brainMask := Flatten(maskDictList)[0][MaskFileKey];
      && run.bundle.value[RightHemMaskKey] == resampleMask(RunMain.RabiesPath(env).value + RightHemAtlas, brainMask)
      && run.bundle.value[LeftHemMaskKey] == resampleMask(RunMain.RabiesPath(env).value + LeftHemAtlas, brainMask)
  {
    var merged := Flatten(maskDictList);
    if merged == [] then MaskRun(Err(EmptyListIndex), [])
    else
      var d := merged[0];
      match MissingMaskKey(d)
      case Some(key) => MaskRun(Err(KeyError(key)), [])
      case None =>
        var template := [Nifti(Abspath(cwd, DisplayTemplateName))];
        var rabiesPath := RunMain.RabiesPath(env);
        if dsurqeRegions && rabiesPath.Err? then MaskRun(Err(rabiesPath.error), template)
        else
          var path := if dsurqeRegions then rabiesPath.value else "";
          var hemispheres := HemisphereMasks(dsurqeRegions, path, d[MaskFileKey], resampleMask);
          var bundle := Bundle(d, cwd, hemispheres, resampleIC(priorMaps, d[MaskFileKey]));
          MaskRun(Ok(bundle), template + [Nifti(Abspath(cwd, EdgeMaskName))])
  }

  /** All subjects' mask files are taken to be identical: only the first merged dictionary matters. */
  lemma OnlyFirstDictionaryUsed(a: seq<seq<map<string, string>>>, b: seq<seq<map<string, string>>>, priorMaps: string,
                                dsurqeRegions: bool, env: map<string, string>, cwd: string,
                                resampleMask: (string, string) -> string, resampleIC: (string, string) -> string)
    requires Flatten(a) != [] && Flatten(b) != [] && Flatten(a)[0] == Flatten(b)[0]
    ensures PrepareMasks(a, priorMaps, dsurqeRegions, env, cwd, resampleMask, resampleIC)
         == PrepareMasks(b, priorMaps, dsurqeRegions, env, cwd, resampleMask, resampleIC)
  {
  }

  /** A bundle PrepMasks builds has every key the dataset diagnosis reads. */
  lemma BundleServesDatasetDiagnosis(maskDictList: seq<seq<map<string, string>>>, priorMaps: string, dsurqeRegions: bool,
                                     env: map<string, string>, cwd: string,
                                     resampleMask: (string, string) -> string, resampleIC: (string, string) -> string)
    requires PrepareMasks(maskDictList, priorMaps, dsurqeRegions, env, cwd, resampleMask, resampleIC).bundle.Ok?
    ensures var bundle := PrepareMasks(maskDictList, priorMaps, dsurqeRegions, env, cwd, resampleMask, resampleIC).bundle.value;
      TemplateFileKey in bundle && BrainMaskKey in bundle
  {
  }

  /** The interface's state: its output trait and the image files it has written. */
  class PrepMasks {
    var maskFileDict: map<string, string>
    ghost var written: seq<Output>

    constructor ()
      ensures maskFileDict == map[] && written == []
    {
      maskFileDict := map[];
      written := [];
    }

    /** `_run_interface`, proved to behave as `PrepareMasks`. */
    method Run(maskDictList: seq<seq<map<string, string>>>, priorMaps: string, dsurqeRegions: bool,
               env: map<string, string>, cwd: string,
               resampleMask: (string, string) -> string, resampleIC: (string, string) -> string)
      returns (r: Outcome<PyError>)
      modifies this
      ensures var run := PrepareMasks(maskDictList, priorMaps, dsurqeRegions, env, cwd, resampleMask, resampleIC);
        && written == old(written) + run.outputs
        && (run.bundle.Ok? ==> r == Pass && maskFileDict == run.bundle.value)
        && (run.bundle.Err? ==> r == Fail(run.bundle.error) && maskFileDict == old(maskFileDict))
    {
      var merged := Flatten(maskDictList);
      if merged == [] {
        return Fail(EmptyListIndex);
      }
      var maskDict := merged[0];
      var missing := MissingMaskKey(maskDict);
      if missing.Some? {
        return Fail(KeyError(missing.value));
      }
      var brainMaskFile := maskDict[MaskFileKey];
      var templateFile := Abspath(cwd, DisplayTemplateName);
      written := written + [Nifti(templateFile)];
      var rightHemMaskFile, leftHemMaskFile := "", "";
      if dsurqeRegions {
        var rabiesPath := RunMain.RabiesPath(env);
        if rabiesPath.Err? {
          return Fail(rabiesPath.error);
        }
        rightHemMaskFile := resampleMask(rabiesPath.value + RightHemAtlas, brainMaskFile);
        leftHemMaskFile := resampleMask(rabiesPath.value + LeftHemAtlas, brainMaskFile);
      }
      var priorMapsFile := resampleIC(priorMaps, brainMaskFile);
      var edgeMaskFile := Abspath(cwd, EdgeMaskName);
      written := written + [Nifti(edgeMaskFile)];
      maskFileDict := Bundle(maskDict, cwd, (rightHemMaskFile, leftHemMaskFile), priorMapsFile);
      r := Pass;
    }
  }
}
