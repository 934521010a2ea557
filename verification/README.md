# RABIES: command-line checks and the diagnosis interfaces, modelled in Dafny

RABIES preprocesses rodent fMRI data. Before it builds any workflow, `rabies/run_main.py` does five things:

- it decides where the default DSURQE/EPI template files live (`rabies_path`);
- it installs those files when one of the fourteen is missing (`install_DSURQE`);
- it validates options (`check_resampling_syntax`, `check_binary_masks`, `check_template_overlap`, the `--brain_extraction` requirement);
- it rewrites options (the `--data_type` mapping and the `--bold_only` substitution of EPI defaults);
- it logs the input tree (`list_files`).

Three nipype interfaces in `rabies/analysis_pkg/diagnosis_pkg/interfaces.py` drive the data diagnosis:

- **`PrepMasks`** builds the mask bundle that every diagnosis step shares.
- **`ScanDiagnosis`** converts the prior index lists, extracts the features of one scan and saves two figures named after its BOLD file.
- **`DatasetDiagnosis`** refuses cohorts of fewer than three scans. Otherwise it stacks the scans' spatial features. It then writes one QC figure and one one-row statistics table per prior, for each of three families:
  - dual regression, always;
  - dual ICA, when present;
  - seed connectivity, when seed priors are given.

## How the model is organised

Errors are values.
- A Python exception becomes `Wrappers.PyError`.
- A check that may raise returns an `Outcome`.
- A computation that may raise returns a `Result`.

Foreign calls become parameters of the model:
- the environment, the set of existing files, image loading and resampling;
- `float()` and `int()` on text;
- feature extraction (`process_data`).

The three interfaces and the options object are classes. Their methods update the output traits in place. Each keeps a ghost `written` sequence recording the files it writes and the directory it creates, in order.

Each method's result and new state are stated in full, in terms of functions of its inputs and old state:
- `DatasetDiagnosis.Run` is proved equal to `Diagnose`, which is built from small steps (`FamilyQc`, `SeedQc`, `MapQc`, `StackedQc`, `AfterOutDir`) chained by `Then`.
- `PrepMasks.Run` is proved equal to `PrepareMasks`.
- `ListFiles.ListFiles` is proved equal to `Tree`.
- `StackScans` is proved equal to `Stacked`; `ResampleSeedPriors` yields `Select` of each resampled prior.
- The option methods set each option to its `BoldOnlySubstitute` value and return `BoldOnlyLog` as their log.

The properties are lemmas about those functions. The main ones are:
- the files a diagnosis run writes are always a prefix of a fixed plan;
- the run writes the whole plan when it succeeds;
- each prior's statistics table is written exactly once, in every family the run writes (dual regression, dual ICA, seed connectivity).

Modules, one file each:
- `Wrappers` (wrappers.dfy): Option, Result, Outcome, PyError.
- `Text` (text.dfy): the Python string operations used. These are split/join on one character, decimal formatting, `replace`, `rsplit(".nii")[0]`, the base name and `abspath`.
- `RunMain` (run_main.dfy): `rabies_path`, `install_DSURQE`, the validators, and the option rewriting at the start of `preprocess`.
- `ListFiles` (list_files.dfy): `list_files`.
- `DiagnosisCommon` (diagnosis_common.dfy): `flatten_list`, boolean mask indexing, numpy stacking shapes, QC file names.
- `PrepMasksInterface`, `ScanDiagnosisInterface`, `DatasetDiagnosisInterface` (prep_masks.dfy, scan_diagnosis.dfy, dataset_diagnosis.dfy): the three interfaces.
- `DatasetPlan` (dataset_plan.dfy): what a dataset diagnosis run writes.

### Behaviour worth noting

- **Dual ICA with fewer components than priors.** The dual-ICA loop runs over the number of priors, not over the number of dual-ICA components (interfaces.py lines 241-246).
  - Take two priors and one dual-ICA component per scan. The run writes `dual_ICA0_QC_maps.png` and its table, then raises `IndexError` when it reaches `dual_ICA1`.
  - `DatasetPlan.DualIcaShortOfPriors` states this outcome.
- **Which scan gives the number of priors.** It is taken from the prior maps of the **last** zipped scan: the loop variable `spatial_info` is read after the loop ends.
  - When the zip is empty, that read raises `UnboundLocalError`.
- **`check_template_overlap`'s condition.** It is parsed as Python parses it: `(not origins_equal) and directions_equal`.
- **`--bold_only` compares strings.** The template options are parsed with `type=Path`, which also applies to their string defaults (run_main.py lines 238-265), and `str()` of a path collapses repeated separators. With `XDG_DATA_HOME` or `HOME` ending in `/`, the default is `<dir>//rabies/…` as a string but `<dir>/rabies/…` as a path. The comparisons at lines 600-628 then fail, and `--bold_only` keeps the DSURQE files without logging anything. `BoldOnlySubstitute` models the string comparison; the argument parser is not modelled.

## Model

| member | source | states |
|---|---|---|
| RunMain.RabiesPath | rabies/run_main.py:11-14 | `$XDG_DATA_HOME/rabies` when that variable is set, else `$HOME/.local/share/rabies`. With neither set, the HOME lookup raises KeyError. Any path it returns ends in `/rabies` |
| RunMain.DefaultPathInjective | rabies/run_main.py:600-626 | Under one `rabies_path`, two default file paths are equal exactly when the file names are |
| RunMain.FirstMissing | rabies/run_main.py:758-785 | The `elif` chain stops at the first file that is not an existing file. Every file checked before it exists. It finds none exactly when all exist |
| RunMain.InstallCommands | rabies/run_main.py:754-790 | The installer `install_DSURQE.sh <rabies_path>` runs exactly when at least one of the fourteen default files is missing. Otherwise nothing runs |
| RunMain.NonBinaryCount | rabies/run_main.py:796 | The count of voxels that are neither 0 nor 1 is positive exactly when such a voxel exists |
| RunMain.CheckBinaryMasks | rabies/run_main.py:793-798 | Raises, with the message naming the file, exactly when some voxel is neither 0 nor 1 |
| RunMain.CheckTemplateOverlap | rabies/run_main.py:801-806 | Raises exactly when origins differ and directions are equal. Equal origins never raise; differing directions never raise |
| RunMain.OverlapIgnoresSpacing | rabies/run_main.py:801-806 | The verdict never depends on the voxel spacing of either image |
| RunMain.CheckResamplingSyntax | rabies/run_main.py:809-821 | Accepts exactly two forms: `inputs_defined`, or a string with exactly two `x` whose three pieces all parse as floats. Every rejection raises the one format message |
| RunMain.ResamplingShapeRejected | rabies/run_main.py:813-817 | Any other string is rejected if it has no `x`, or if it splits into two or four pieces |
| RunMain.ResamplingFromPieces | rabies/run_main.py:815-818 | `a x b x c` built from `x`-free pieces is accepted exactly when each piece parses as a float |
| RunMain.ParseDataType | rabies/run_main.py:585-594 | Exactly the four names are accepted, each selecting the pixel type of that name. Any other text raises `Invalid --data_type provided.` |
| RunMain.DataTypeRoundTrip | rabies/run_main.py:585-592 | Each pixel type is selected by its own name |
| RunMain.BoldOnlySubstitute | rabies/run_main.py:600-603 | A value equal to the DSURQE default path becomes the EPI default path and emits one log line naming the option and the new file. Any other value is kept, with no log line |
| RunMain.BoldOnlyLog | rabies/run_main.py:599-628 | The `--bold_only` log holds at most one line per option, seven in all |
| RunMain.BoldOnlyLogEmpty | rabies/run_main.py:599-628 | Nothing is logged exactly when no option holds its DSURQE default |
| RunMain.BoldOnlyIdempotent | rabies/run_main.py:599-628 | Applying the substitution to its own result changes nothing |
| RunMain.BoldOnlyFilesInstalled | rabies/run_main.py:599-628 | Every default the substitution compares against, and every EPI file it substitutes, is one of the fourteen installed files. The two differ |
| RunMain.ApplyBoldOnly | rabies/run_main.py:599-628 | Each of the six template and mask options, and `--prior_maps` when analysis options exist, becomes its substituted value. The log is `BoldOnlyLog` of the old values: one line per rewritten option, in the source's order. All other options are unchanged |
| RunMain.CheckBrainExtraction | rabies/run_main.py:639-641 | Raises exactly when `--brain_extraction` is given without `--commonspace_masking` and without `--coreg_masking` |
| RunMain.ApplyPreprocessOptions | rabies/run_main.py:585-641 | An unknown `--data_type` raises, logs nothing and changes nothing. Otherwise: the data type is converted; the `--bold_only` substitution applies when that flag is set, and the log is then `BoldOnlyLog` of the old values (empty without the flag); the outcome is the brain-extraction check |
| ListFiles.AppendFileLines | rabies/run_main.py:831-832 | Appends one `<subindent><name> \n` line per file, in order |
| ListFiles.LevelOfStart | rabies/run_main.py:827 | The start directory itself is at level 0 |
| ListFiles.LevelBelowStart | rabies/run_main.py:827 | `startpath/rel` is at level one more than the separators in `rel`, when `startpath` does not occur again in `/rel` |
| ListFiles.ListFiles | rabies/run_main.py:824-833 | The accumulated string equals the listing `Tree`: per walk entry, its directory line, then its file lines, in walk order |
| ListFiles.FileLineCount | rabies/run_main.py:832 | A file line holds exactly one newline |
| ListFiles.FileLinesCount | rabies/run_main.py:831-832 | An entry's file lines hold one newline per file |
| ListFiles.DirLineCount | rabies/run_main.py:829 | A directory line holds exactly one newline |
| ListFiles.TreeLineCount | rabies/run_main.py:824-833 | Without newlines in names, the listing has exactly one line per directory plus one per file |
| ListFiles.TreeAppend | rabies/run_main.py:826-832 | Listing two parts of a walk in turn is the listing of the whole walk |
| Text.CountChar | rabies/run_main.py:827 | The count is zero exactly when the character does not occur |
| Text.CountCharAppend | rabies/run_main.py:827 | Counts add over concatenation |
| Text.Split | rabies/run_main.py:815 | `str.split` on one character gives one more piece than there are separators. No piece contains the separator |
| Text.JoinSplit | rabies/run_main.py:815 | Joining the pieces of a split restores the string |
| Text.SplitJoin | rabies/run_main.py:815-816 | Splitting a join of separator-free pieces gives back the pieces |
| Text.NatToDecimal | rabies/analysis_pkg/diagnosis_pkg/interfaces.py:237 | An index in an f-string is a non-empty string of decimal digits |
| Text.DecimalRoundTrip | rabies/analysis_pkg/diagnosis_pkg/interfaces.py:237 | Reading the digits back gives the index |
| Text.NatToDecimalInjective | rabies/analysis_pkg/diagnosis_pkg/interfaces.py:237-239 | Distinct indices are formatted differently |
| Text.BeforeFirst | rabies/analysis_pkg/diagnosis_pkg/interfaces.py:135 | `rsplit(".nii")[0]` is a prefix with no occurrence of the pattern inside it. It ends where the first occurrence starts, or at the end of the string |
| Text.BeforeFirstAt | rabies/analysis_pkg/diagnosis_pkg/interfaces.py:135 | When the first occurrence is at `n`, the result is the first `n` characters |
| Text.AfterLast | rabies/run_main.py:829 | The base name is a separator-free suffix, preceded by a separator unless it is the whole path |
| Text.AfterLastAfterSeparator | rabies/run_main.py:829 | The base name of `a/b`, for a separator-free `b`, is `b` |
| Text.StripTrailing | rabies/analysis_pkg/diagnosis_pkg/interfaces.py:135 | A prefix with no trailing separator; everything dropped is a separator |
| Text.Abspath | rabies/analysis_pkg/diagnosis_pkg/interfaces.py:46 | `os.path.abspath` under an absolute working directory is absolute. An empty name gives the working directory and an absolute name is kept. A relative name ends the result after one separator, under the working directory, and under the root it gives `/<name>` |
| Text.RemoveAll | rabies/run_main.py:827 | `replace(startpath, '')` never lengthens the string and leaves it unchanged for an empty pattern |
| Text.RemoveAllAbsent | rabies/run_main.py:827 | A string in which the pattern does not occur is left unchanged |
| Text.RemoveAllLeading | rabies/run_main.py:827 | A leading occurrence of the pattern is removed |
| Text.Indent | rabies/run_main.py:828 | The indentation is `4 * level` spaces |
| DiagnosisCommon.FlattenHead | rabies/analysis_pkg/diagnosis_pkg/interfaces.py:37-38 | `merged[0]` is the first element of the first non-empty per-subject list |
| DiagnosisCommon.FlattenEmpty | rabies/analysis_pkg/diagnosis_pkg/interfaces.py:189-192 | Nothing is merged exactly when every per-subject list is empty |
| DiagnosisCommon.MaskIndices | rabies/analysis_pkg/diagnosis_pkg/interfaces.py:202 | `astype(bool)` picks exactly the non-zero positions of the mask, in increasing order |
| DiagnosisCommon.SelectAtMaskIndices | rabies/analysis_pkg/diagnosis_pkg/interfaces.py:224-225 | `image[volume_indices]` keeps exactly the voxels at those positions, in order |
| DiagnosisCommon.MaskedVoxels | rabies/analysis_pkg/diagnosis_pkg/interfaces.py:258-259 | Boolean indexing raises IndexError exactly when the image and mask voxel counts differ. Otherwise it yields the image's values at the mask's non-zero positions, in order, one per mask voxel |
| DiagnosisCommon.FamilyOutputs | rabies/analysis_pkg/diagnosis_pkg/interfaces.py:235-239 | A family's loop over `n` priors writes `2n` files |
| DiagnosisCommon.FamilyOutputAt | rabies/analysis_pkg/diagnosis_pkg/interfaces.py:235-239 | Prior `i`'s figure is at position `2i` and its one-row table at `2i+1` |
| DiagnosisCommon.QcPathsInjective | rabies/analysis_pkg/diagnosis_pkg/interfaces.py:237-239 | Different priors get different figure names and different table names |
| DiagnosisCommon.FamilyOutputOnce | rabies/analysis_pkg/diagnosis_pkg/interfaces.py:235-239 | Within a family, prior `i`'s table occurs only at `2i+1` and its figure only at `2i` |
| DiagnosisCommon.QcPathFamilyAt | rabies/analysis_pkg/diagnosis_pkg/interfaces.py:237-239 | A QC file name continues the output directory with `/` and the family name |
| PrepMasksInterface.MissingMaskKey | rabies/analysis_pkg/diagnosis_pkg/interfaces.py:39-44 | Finds the first of the four keys read that the mask dictionary lacks: each key is returned exactly when it is missing and every key read before it is present. There is none exactly when all four are present |
| PrepMasksInterface.PrepareMasks | rabies/analysis_pkg/diagnosis_pkg/interfaces.py:35-71 | See the note after this table |
| PrepMasksInterface.OnlyFirstDictionaryUsed | rabies/analysis_pkg/diagnosis_pkg/interfaces.py:37-38 | Two inputs whose first merged dictionaries agree give the same run |
| PrepMasksInterface.BundleServesDatasetDiagnosis | rabies/analysis_pkg/diagnosis_pkg/interfaces.py:67-68 | A bundle that is built holds `template_file` and `brain_mask` |
| PrepMasksInterface.PrepMasks.Run | rabies/analysis_pkg/diagnosis_pkg/interfaces.py:35-71 | Writes exactly the files it writes itself, as `PrepareMasks` names them (the files written inside the resampling calls are not recorded). On success it sets `mask_file_dict` to the bundle; on error it raises the same error and keeps the old bundle |
| ScanDiagnosisInterface.TruncateTowardZero | rabies/analysis_pkg/diagnosis_pkg/interfaces.py:125 | `int()` of a float drops the fractional part toward zero |
| ScanDiagnosisInterface.FirstRejected | rabies/analysis_pkg/diagnosis_pkg/interfaces.py:125 | Finds the first element `int()` rejects; among integers, finite floats and text, only text can be rejected. Every earlier element converts. There is none exactly when all convert |
| ScanDiagnosisInterface.ConvertIndices | rabies/analysis_pkg/diagnosis_pkg/interfaces.py:125 | The comprehension succeeds exactly when every element converts, keeping length and order. Otherwise it raises ValueError quoting the first rejected text between single quotes |
| ScanDiagnosisInterface.ConvertIntegersUnchanged | rabies/analysis_pkg/diagnosis_pkg/interfaces.py:125-126 | Integer indices pass through unchanged |
| ScanDiagnosisInterface.BothIndexLists | rabies/analysis_pkg/diagnosis_pkg/interfaces.py:125-126 | The signal list is converted first, then the confound list. The first error raised is the result |
| ScanDiagnosisInterface.PathName | rabies/analysis_pkg/diagnosis_pkg/interfaces.py:135 | `Path(...).name` contains no separator |
| ScanDiagnosisInterface.FilenameTemplate | rabies/analysis_pkg/diagnosis_pkg/interfaces.py:135 | The template is a separator-free prefix of the file name with no `.nii` starting inside it |
| ScanDiagnosisInterface.PathNameOfJoin | rabies/analysis_pkg/diagnosis_pkg/interfaces.py:135 | The name of `dir/name` is `name` |
| ScanDiagnosisInterface.FilenameTemplateOfName | rabies/analysis_pkg/diagnosis_pkg/interfaces.py:135 | The template of `dir/name` is `name` up to its first `.nii` |
| ScanDiagnosisInterface.FilenameTemplateOfBoldFile | rabies/analysis_pkg/diagnosis_pkg/interfaces.py:135 | The template of `dir/<stem>.nii<ext>` is `<stem>` |
| ScanDiagnosisInterface.FigureStemOfBoldFile | rabies/analysis_pkg/diagnosis_pkg/interfaces.py:135-138 | The figures of `dir/<stem>.nii<ext>` are saved as `<cwd>/<stem>_…`, or `/<stem>_…` when the working directory is the root |
| ScanDiagnosisInterface.FigureStemIgnoresDirectory | rabies/analysis_pkg/diagnosis_pkg/interfaces.py:135-136 | Scans with the same file name in different directories get the same figure names |
| ScanDiagnosisInterface.FiguresDistinct | rabies/analysis_pkg/diagnosis_pkg/interfaces.py:137-143 | A scan's temporal and spatial figures never share a name |
| ScanDiagnosisInterface.ScanDiagnosis.Run | rabies/analysis_pkg/diagnosis_pkg/interfaces.py:119-147 | A conversion error raises and changes nothing. Otherwise: the features are those of `process_data` on the converted indices; the two figures are written, temporal first; the output traits name them |
| ScanDiagnosisInterface.ScanDiagnosis.Record | rabies/analysis_pkg/diagnosis_pkg/interfaces.py:137-145 | Saves the two figures in order and sets the four output traits |
| DatasetDiagnosisInterface.ZipScans | rabies/analysis_pkg/diagnosis_pkg/interfaces.py:215 | `zip` is as long as the shortest list, and element `k` pairs the `k`-th entries |
| DatasetDiagnosisInterface.OutDirAtRoot | rabies/analysis_pkg/diagnosis_pkg/interfaces.py:196 | Run from the root directory, the output directory is `/dataset_diagnosis` |
| DatasetDiagnosisInterface.StackedShape | rabies/analysis_pkg/diagnosis_pkg/interfaces.py:209-231 | Stacking fails, with numpy's boolean-index IndexError, exactly when a seed map's voxel count differs from the mask's. Otherwise it keeps one entry per scan in order, and each seed vector has one value per mask voxel |
| DatasetDiagnosisInterface.StackScans | rabies/analysis_pkg/diagnosis_pkg/interfaces.py:215-226 | The stacking loop computes `Stacked` |
| DatasetDiagnosisInterface.ResampleSeedPriors | rabies/analysis_pkg/diagnosis_pkg/interfaces.py:253-261 | Fails exactly when a resampled seed prior's voxel count differs from the mask's. Otherwise vector `j` is the mask selection of the `j`-th resampled prior |
| DatasetDiagnosisInterface.DatasetDiagnosis.WriteFamily | rabies/analysis_pkg/diagnosis_pkg/interfaces.py:235-239 | Writes figure and table for each prior until axis 1 runs out. It raises IndexError exactly when there are more priors than axis-1 entries |
| DatasetDiagnosisInterface.DatasetDiagnosis.RunSeedQc | rabies/analysis_pkg/diagnosis_pkg/interfaces.py:250-268 | Behaves as `SeedQc` |
| DatasetDiagnosisInterface.DatasetDiagnosis.RunMapQc | rabies/analysis_pkg/diagnosis_pkg/interfaces.py:233-246 | Behaves as `MapQc`: the dual-regression loop, then the dual-ICA loop if axis 1 is non-empty and nothing was raised |
| DatasetDiagnosisInterface.DatasetDiagnosis.RunStacked | rabies/analysis_pkg/diagnosis_pkg/interfaces.py:209-268 | Behaves as `StackedQc` |
| DatasetDiagnosisInterface.DatasetDiagnosis.RunAfterOutDir | rabies/analysis_pkg/diagnosis_pkg/interfaces.py:196-268 | Behaves as `AfterOutDir` |
| DatasetDiagnosisInterface.DatasetDiagnosis.Run | rabies/analysis_pkg/diagnosis_pkg/interfaces.py:184-273 | Raises and writes exactly as `Diagnose`. `dataset_diagnosis` becomes the output directory on success and is unchanged on error |
| DatasetPlan.FamilyPrefix | rabies/analysis_pkg/diagnosis_pkg/interfaces.py:235-239 | The files of the first `m` priors are a prefix of those of the first `n ≥ m` |
| DatasetPlan.ThenFollows | rabies/analysis_pkg/diagnosis_pkg/interfaces.py:233-268 | Two steps in sequence write a prefix of their joined plans, and all of it when neither raises |
| DatasetPlan.FamilyQcFollows | rabies/analysis_pkg/diagnosis_pkg/interfaces.py:235-239 | A family loop writes a prefix of all priors' files, and all of them when it does not raise |
| DatasetPlan.MapQcFollows | rabies/analysis_pkg/diagnosis_pkg/interfaces.py:233-246 | The same for the dual-regression and dual-ICA loops together |
| DatasetPlan.StackedDualIca | rabies/analysis_pkg/diagnosis_pkg/interfaces.py:241 | The stacked dual-ICA axis 1 is non-empty exactly when the first scan has dual-ICA maps |
| DatasetPlan.StackedQcFollows | rabies/analysis_pkg/diagnosis_pkg/interfaces.py:209-268 | The per-prior QC writes a prefix of the QC plan, and all of it on success |
| DatasetPlan.AfterOutDirFollows | rabies/analysis_pkg/diagnosis_pkg/interfaces.py:196-268 | After the directory, the run writes the cross-correlation figure and then a prefix of the QC plan |
| DatasetPlan.DiagnoseFollowsPlan | rabies/analysis_pkg/diagnosis_pkg/interfaces.py:184-273 | See the note after this table |
| DatasetPlan.SmallCohortWritesNothing | rabies/analysis_pkg/diagnosis_pkg/interfaces.py:192-197 | A run writes nothing exactly when fewer than three scans are merged, and then it raises the sample-size ValueError |
| DatasetPlan.PerPriorQcPasses | rabies/analysis_pkg/diagnosis_pkg/interfaces.py:233-268 | The per-prior QC raises nothing exactly when each loop has enough axis-1 entries for its priors and, with seed priors, the resampled priors match the mask and the seed maps stack |
| DatasetPlan.StackedQcPasses | rabies/analysis_pkg/diagnosis_pkg/interfaces.py:209-268 | From stacking on, a run raises nothing exactly when stacking succeeds, the stacks are rectangular, the zip is non-empty and the per-prior checks hold |
| DatasetPlan.DiagnosePasses | rabies/analysis_pkg/diagnosis_pkg/interfaces.py:184-273 | A run raises nothing exactly when `Succeeds` holds: at least three scans, both mask keys, and every stacking and per-prior check |
| DatasetPlan.FamilyAvoids | rabies/analysis_pkg/diagnosis_pkg/interfaces.py:237-268 | Files of families with different first letters (`DR`, `dual_ICA`, `seed_FC`) never share a name |
| DatasetPlan.PlanStatsTableOnce | rabies/analysis_pkg/diagnosis_pkg/interfaces.py:235-268 | In the plan, for each family written (dual regression; dual ICA when present; seed connectivity), prior `i`'s table occurs only at the family's start plus `2i+1`, and its figure only at the start plus `2i`. The starts are 2, `2+2p`, and `2+2p` plus `2p` more when dual ICA is present |
| DatasetPlan.OneStatsTablePerPrior | rabies/analysis_pkg/diagnosis_pkg/interfaces.py:235-268 | In a successful run, each prior's statistics table is written exactly once, right after its figure, in every family the run writes |
| DatasetPlan.TwoPriorPlan | rabies/analysis_pkg/diagnosis_pkg/interfaces.py:196-239 | The plan for two priors, no dual ICA and no seeds lists: the directory, the cross-correlation figure, then `DR0` figure and table, then `DR1` figure and table |
| DatasetPlan.TwoPriorRun | rabies/analysis_pkg/diagnosis_pkg/interfaces.py:189-268 | A run with two priors, no dual ICA and no seeds whose checks pass raises nothing and writes exactly those six outputs, in that order |
| DatasetPlan.SecondDRTableName | rabies/analysis_pkg/diagnosis_pkg/interfaces.py:239 | Prior 1's dual-regression table is `<out_dir>/DR1_QC_stats.csv` |
| DatasetPlan.DualIcaShortOfPriors | rabies/analysis_pkg/diagnosis_pkg/interfaces.py:241-246 | With two priors over one dual-ICA component, the run writes both `DR` priors' files and the `dual_ICA0` files, then raises IndexError |
| DatasetPlan.PreparedMasksReachCrossCorrelation | rabies/analysis_pkg/diagnosis_pkg/interfaces.py:199-207 | For a cohort of at least three scans, a bundle built by PrepMasks gets the run past the key lookups. The cross-correlation figure is the second output |

Notes on the two longest entries:

- **`PrepMasksInterface.PrepareMasks`:**
  - It fails, in this order:
    - with IndexError on an empty merge;
    - with KeyError on the first missing mask key;
    - with KeyError(`HOME`) when `DSURQE_regions` is set and no data directory is known. In that case only the display template has been written.
  - Otherwise the bundle has the eight keys:
    - the brain, WM and CSF masks come from the first merged dictionary;
    - the hemisphere masks come from the installed atlas when `DSURQE_regions` is set, and are `""` otherwise;
    - the prior maps are `--prior_maps` resampled onto the brain mask, always;
    - the display template and the edge mask are written, in that order, as `display_template.nii.gz` and `edge_mask.nii.gz` under the working directory, and the bundle names them by those paths.
- **`DatasetPlan.DiagnoseFollowsPlan`:** whatever the inputs, the files written are a prefix of the plan, and all of it on success. The plan is:
  - the directory;
  - the cross-correlation figure;
  - for dual regression, one figure and one table per prior;
  - the same for dual ICA, when present;
  - the same per seed prior.

## Left out

- Image I/O and numerics are parameters or omitted:
  - reading and writing images;
  - `resample_image_spacing` and the edge-mask computation;
  - `otsu_scaling`, `spatial_crosscorrelations` and `analysis_QC`;
  - the statistics in the QC tables, which are modelled only as one-row tables with a file name;
  - the figures' contents.
- Python's `float()` and `int()` on text are parameters. Their grammar is not modelled.
- Image resampling (`resample_mask`, `resample_IC_file`, `sitk.Resample`) and `process_data` are parameters. So are the environment, the set of existing files and the working directory.
- `os.walk` is given as the sequence of entries it yields. Its traversal order is not modelled.
- Text.Abspath: `os.path.abspath` is modelled only under a normalised absolute working directory (the root included), without `..` or `.` normalisation of the name. The calls at lines 631-636 of run_main.py that make the template options absolute are not modelled.
- ScanDiagnosisInterface.PathName: pathlib drops `.` components, so `Path('a/.').name` is `a`, while `PathName("a/.")` is `.`. Paths with `.` components are not modelled.
- The rest of run_main.py is not part of this model:
  - the argument parser;
  - workflow construction;
  - logging setup;
  - RAS conversion of the template files;
  - the `preprocess`/`confound_correction`/`analysis` drivers.
- The seed branch's temporary directory and file (interfaces.py lines 251-257) are not modelled. The resampled priors are obtained directly from the resampling parameter.
- `flatten_list` is modelled for one level of nesting: a list of per-subject lists.
- The SimpleITK pixel-type codes are modelled as an enumeration, not as their integer values.
- KeyErrors from missing `file_dict`, `spatial_info` or `analysis_dict` keys are not modelled: those records are datatypes with every field present. The mask-bundle keys, which are a map, are modelled.
- DiagnosisCommon.MaskedVoxels: images are flat voxel vectors, so boolean indexing is checked on the voxel count only. numpy also compares shapes: a (2,3,4) mask against a (4,3,2) map is accepted by the model and refused by numpy.
- DatasetDiagnosisInterface.StackedShape: the same voxel-count check stands for numpy's shape check on each seed map.
- DatasetDiagnosisInterface.ResampleSeedPriors: the same voxel-count check stands for numpy's shape check on each resampled prior.
- The ValueError for stacking ragged lists (`InhomogeneousShape`) is numpy 1.24 and later. Older numpy builds an object array instead, and the later indexing fails differently.
- ScanDiagnosisInterface.ConvertIndices: the rejected text is quoted as Python's `repr` quotes it only for texts without quotes or backslashes.
- Voxels, origins and float indices are real numbers: there is no NaN and no infinity. Python and numpy treat these specially in three places the model does not capture. `check_binary_masks` (run_main.py line 796) counts a NaN voxel as non-binary and raises. `astype(bool)` (interfaces.py line 202) puts NaN voxels in the mask. `int()` (interfaces.py line 125) raises ValueError on a NaN and OverflowError on an infinity.
- numpy's exact error messages are approximated. A stack whose second axis is empty is indexed with the same IndexError as one that is too short.
- RunMain.ApplyPreprocessOptions: requires that `--data_type` has not been converted yet, as on the single call the source makes. It does not model lines 631-636 of run_main.py, which make the template options absolute: the options keep the values `--bold_only` gave them.
- RunMain.InstallCommands: returns only the installer command. The `log.info` announcing the missing files (run_main.py lines 787-788) is left out, and so is the return code of `run_command`, which the source ignores.
- PrepMasksInterface.PrepMasks.Run: records only the files it writes itself (the display template and the edge mask). The files written inside `resample_mask` and `resample_IC_file` (interfaces.py lines 54-63) are not recorded.
- DatasetDiagnosisInterface.DatasetDiagnosis.Run: `os.makedirs(exist_ok=True)` is recorded as creating the directory even when it already exists.
