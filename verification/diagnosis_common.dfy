/**
 * Values shared by the three diagnosis interfaces of
 * `rabies/analysis_pkg/diagnosis_pkg/interfaces.py`: images as voxel vectors, the
 * files an interface writes, `flatten_list` of the per-subject lists, numpy's boolean
 * mask indexing, and the names of the per-prior QC files.
 */
module DiagnosisCommon {
  import opened Wrappers
  import opened Text

  /** The voxel values of an image, in numpy's flattening order. */
  type Image = seq<real>

  /** A file an interface writes (or a directory it creates), recorded in the order of writing. */
  datatype Output =
    | Directory(path: string)
    | Png(path: string)
    | Nifti(path: string)
    | Csv(path: string, rows: nat)

  /** The confound-regression data of a scan; only its temporal degrees of freedom are used here. */
  datatype CrData = CrData(tdof: real)

  /** `file_dict` of one scan: its BOLD file, confound-regression data, variance-explained and std maps. */
  datatype FileDict = FileDict(boldFile: string, crData: CrData, veFile: string, stdFile: string)

  /**
   * `spatial_info` of one scan, restricted to the brain-mask voxels: the temporal std map,
   * the variance explained by confound regression, one dual-regression map per prior, the
   * dual-ICA maps (none when dual ICA was not run) and the prior maps themselves.
   */
  datatype SpatialInfo = SpatialInfo(
    temporalStd: Image,
    veSpatial: Image,
    drBold: seq<Image>,
    dualIcaMaps: seq<Image>,
    priorMaps: seq<Image>)

  /** `analysis_dict` of one scan: the seed-based connectivity maps computed for it. */
  datatype AnalysisDict = AnalysisDict(seedMapFiles: seq<string>)

  // ---------------------------------------------------------------------------
  // The keys of `mask_file_dict`, which PrepMasks builds and the diagnosis steps read

  const TemplateFileKey := "template_file"
  const BrainMaskKey := "brain_mask"
  const WMMaskKey := "WM_mask"
  const CSFMaskKey := "CSF_mask"
  const EdgeMaskKey := "edge_mask"
  const RightHemMaskKey := "right_hem_mask"
  const LeftHemMaskKey := "left_hem_mask"
  const PriorMapsKey := "prior_maps"

  /** The eight keys of a mask bundle. */
  const BundleKeys: set<string> := {TemplateFileKey, BrainMaskKey, WMMaskKey, CSFMaskKey,
                                    EdgeMaskKey, RightHemMaskKey, LeftHemMaskKey, PriorMapsKey}

  // ---------------------------------------------------------------------------
  // flatten_list of the per-subject lists a workflow join produces

  /** The per-subject lists concatenated in order. */
  function Flatten<T>(xss: seq<seq<T>>): seq<T>
    decreases |xss|
  {
    if xss == [] then [] else xss[0] + Flatten(xss[1..])
  }

  /** The first merged element is the first element of the first non-empty list. */
  lemma {:induction false} FlattenHead<T>(xss: seq<seq<T>>, k: nat)
    requires k < |xss| && xss[k] != []
    requires forall j :: 0 <= j < k ==> xss[j] == []
    ensures Flatten(xss) != [] && Flatten(xss)[0] == xss[k][0]
    decreases k
  {
    if k > 0 {
      FlattenHead(xss[1..], k - 1);
    }
  }

  /** Nothing is merged exactly when every list is empty. */
  lemma {:induction false} FlattenEmpty<T>(xss: seq<seq<T>>)
    ensures Flatten(xss) == [] <==> forall j :: 0 <= j < |xss| ==> xss[j] == []
    decreases |xss|
  {
    if xss != [] {
      FlattenEmpty(xss[1..]);
      if Flatten(xss) == [] {
        forall j | 0 <= j < |xss| ensures xss[j] == [] {
          if j > 0 {
            assert xss[j] == xss[1..][j - 1];
          }
        }
      } else if xss[0] == [] {
        var j :| 0 <= j < |xss[1..]| && xss[1..][j] != [];
        assert xss[j + 1] != [];
      }
    }
  }

  // ---------------------------------------------------------------------------
  // image[mask.astype(bool)]

  /** A voxel is inside the mask when its mask value is non-zero. */
  predicate InMask(v: real) {
    v != 0.0
  }

  /** The positions of the non-zero mask voxels, in increasing order. */
  function MaskIndices(mask: Image): (idx: seq<nat>)
    ensures |idx| <= |mask|
    ensures forall k :: 0 <= k < |idx| ==> idx[k] < |mask| && InMask(mask[idx[k]])
    ensures forall k, l :: 0 <= k < l < |idx| ==> idx[k] < idx[l]
    ensures forall v :: 0 <= v < |mask| && InMask(mask[v]) ==> v in idx
    decreases |mask|
  {
    if mask == [] then []
    else MaskIndices(mask[..|mask| - 1]) + (if InMask(mask[|mask| - 1]) then [|mask| - 1] else [])
  }

  /** The voxels of `image` where `mask` is non-zero, in voxel order. */
  function Select(image: Image, mask: Image): Image
    requires |image| == |mask|
    decreases |mask|
  {
    if mask == [] then []
    else Select(image[..|image| - 1], mask[..|mask| - 1]) + (if InMask(mask[|mask| - 1]) then [image[|image| - 1]] else [])
  }

  /** Boolean indexing keeps exactly the voxels at the mask's non-zero positions, in order. */
  lemma {:induction false} SelectAtMaskIndices(image: Image, mask: Image)
    requires |image| == |mask|
    ensures |Select(image, mask)| == |MaskIndices(mask)|
    ensures forall k :: 0 <= k < |MaskIndices(mask)| ==> Select(image, mask)[k] == image[MaskIndices(mask)[k]]
    decreases |mask|
  {
    if mask != [] {
      SelectAtMaskIndices(image[..|image| - 1], mask[..|mask| - 1]);
    }
  }

  /** numpy's error for a boolean index whose shape differs from the indexed array. */
  const BooleanIndexMismatch := IndexError("boolean index did not match indexed array")

  /** `image[mask]` with numpy's shape check. */
  function MaskedVoxels(image: Image, mask: Image): (r: Result<Image, PyError>)
    ensures r.Err? <==> |image| != |mask|
    ensures r.Err? ==> r.error == BooleanIndexMismatch
    ensures r.Ok? ==> r.value == Select(image, mask)
    ensures r.Ok? ==> |r.value| == |MaskIndices(mask)|
    ensures r.Ok? ==> forall k :: 0 <= k < |r.value| ==> r.value[k] == image[MaskIndices(mask)[k]]
  {
    if |image| != |mask| then Err(BooleanIndexMismatch)
    else
      SelectAtMaskIndices(image, mask);
      Ok(Select(image, mask))
  }

  // ---------------------------------------------------------------------------
  // Stacking with np.array

  /** `np.array` of vectors is a 2-D array only when the vectors have one length. */
  predicate Rectangular(rows: seq<Image>) {
    forall k :: 0 <= k < |rows| ==> |rows[k]| == |rows[0]|
  }

  /** `np.array` of lists of vectors is a 3-D array only when every list and every vector agree in length. */
  predicate Rectangular3(blocks: seq<seq<Image>>) {
    && (forall k :: 0 <= k < |blocks| ==> |blocks[k]| == |blocks[0]|)
    && (forall k, j :: 0 <= k < |blocks| && 0 <= j < |blocks[k]| ==> |blocks[k][j]| == |blocks[0][0]|)
  }

  /** numpy's error for stacking vectors of different lengths. */
  const InhomogeneousShape := ValueError("setting an array element with a sequence: inhomogeneous shape")

  /** numpy's error for indexing past the end of an axis. */
  const AxisIndexError := IndexError("index is out of bounds for axis 1")

  /** The size of axis 1 of a stacked 3-D array (0 for an empty stack). */
  function Axis1(blocks: seq<seq<Image>>): nat {
    if blocks == [] then 0 else |blocks[0]|
  }

  // ---------------------------------------------------------------------------
  // Per-prior QC file names

  /** `f'{out_dir}/{family}{i}_QC_maps.png'`. */
  function QcMapsPath(outDir: string, family: string, i: nat): string {
    outDir + "/" + family + NatToDecimal(i) + "_QC_maps.png"
  }

  /** `f'{out_dir}/{family}{i}_QC_stats.csv'`. */
  function QcStatsPath(outDir: string, family: string, i: nat): string {
    outDir + "/" + family + NatToDecimal(i) + "_QC_stats.csv"
  }

  /** The figure and the one-row table of each prior index `0 .. n-1`, in index order. */
  function FamilyOutputs(outDir: string, family: string, n: nat): (outs: seq<Output>)
    ensures |outs| == 2 * n
    decreases n
  {
    if n == 0 then []
    else FamilyOutputs(outDir, family, n - 1) + [Png(QcMapsPath(outDir, family, n - 1)), Csv(QcStatsPath(outDir, family, n - 1), 1)]
  }

  /** Prior index `i` owns positions `2i` (its figure) and `2i+1` (its one-row table). */
  lemma {:induction false} FamilyOutputAt(outDir: string, family: string, n: nat, i: nat)
    requires i < n
    ensures FamilyOutputs(outDir, family, n)[2 * i] == Png(QcMapsPath(outDir, family, i))
    ensures FamilyOutputs(outDir, family, n)[2 * i + 1] == Csv(QcStatsPath(outDir, family, i), 1)
    decreases n
  {
    if i < n - 1 {
      FamilyOutputAt(outDir, family, n - 1, i);
    }
  }

  /** Equal file names around a middle part have equal middle parts. */
  lemma CancelAround(p: string, x: string, y: string, q: string)
    requires p + x + q == p + y + q
    ensures x == y
  {
    assert |x| == |y|;
    assert x == (p + x + q)[|p|..|p| + |x|];
    assert y == (p + y + q)[|p|..|p| + |y|];
  }

  /** Different prior indices get different figure names and different table names. */
  lemma QcPathsInjective(outDir: string, family: string, i: nat, j: nat)
    ensures QcMapsPath(outDir, family, i) == QcMapsPath(outDir, family, j) ==> i == j
    ensures QcStatsPath(outDir, family, i) == QcStatsPath(outDir, family, j) ==> i == j
  {
    var p := outDir + "/" + family;
    if QcMapsPath(outDir, family, i) == QcMapsPath(outDir, family, j) {
      CancelAround(p, NatToDecimal(i), NatToDecimal(j), "_QC_maps.png");
      NatToDecimalInjective(i, j);
    }
    if QcStatsPath(outDir, family, i) == QcStatsPath(outDir, family, j) {
      CancelAround(p, NatToDecimal(i), NatToDecimal(j), "_QC_stats.csv");
      NatToDecimalInjective(i, j);
    }
  }

  /** Within a family, the table of prior `i` is written once, at position `2i+1`, and its figure once, at `2i`. */
  lemma FamilyOutputOnce(outDir: string, family: string, n: nat, i: nat, k: nat)
    requires i < n && k < 2 * n
    ensures FamilyOutputs(outDir, family, n)[k] == Csv(QcStatsPath(outDir, family, i), 1) <==> k == 2 * i + 1
    ensures FamilyOutputs(outDir, family, n)[k] == Png(QcMapsPath(outDir, family, i)) <==> k == 2 * i
  {
    var outs := FamilyOutputs(outDir, family, n);
    var m := k / 2;
    FamilyOutputAt(outDir, family, n, m);
    QcPathsInjective(outDir, family, m, i);
    if k == 2 * m {
      assert outs[k] == Png(QcMapsPath(outDir, family, m));
    } else {
      assert k == 2 * m + 1;
      assert outs[k] == Csv(QcStatsPath(outDir, family, m), 1);
    }
  }

  /** A QC file name starts with the output directory, a '/', and the family name. */
  lemma QcPathFamilyAt(outDir: string, family: string, i: nat, m: nat)
    requires m < |family|
    ensures QcMapsPath(outDir, family, i)[|outDir| + 1 + m] == family[m]
    ensures QcStatsPath(outDir, family, i)[|outDir| + 1 + m] == family[m]
  {
    assert QcMapsPath(outDir, family, i) == (outDir + "/" + family) + (NatToDecimal(i) + "_QC_maps.png");
    assert QcStatsPath(outDir, family, i) == (outDir + "/" + family) + (NatToDecimal(i) + "_QC_stats.csv");
  }
}
