/**
 * What a `DatasetDiagnosis` run writes: always a prefix of the fixed plan (output
 * directory, cross-correlation figure, then the per-prior QC files family by family),
 * all of it when the run succeeds, and each prior's statistics table exactly once.
 */
module DatasetPlan {
  import opened Wrappers
  import opened Text
  import opened DiagnosisCommon
  import opened DatasetDiagnosisInterface
  import PrepMasksInterface

  // ---------------------------------------------------------------------------
  // Prefixes

  /** A family's first `m` priors are written before its later ones. */
  lemma {:induction false} FamilyPrefix(outDir: string, family: string, m: nat, n: nat)
    requires m <= n
    ensures FamilyOutputs(outDir, family, m) <= FamilyOutputs(outDir, family, n)
    decreases n
  {
    if m < n {
      FamilyPrefix(outDir, family, m, n - 1);
      assert FamilyOutputs(outDir, family, n - 1) <= FamilyOutputs(outDir, family, n);
    }
  }

  /** The QC files a run writes after the cross-correlation figure, when all go well. */
  function QcPlan(outDir: string, priors: nat, dualIca: bool, seedCount: nat): seq<Output> {
    FamilyOutputs(outDir, DRFamily, priors)
      + (if dualIca then FamilyOutputs(outDir, DualIcaFamily, priors) else [])
      + FamilyOutputs(outDir, SeedFamily, seedCount)
  }

  /** A step keeps to `plan`: it writes a prefix of it, and all of it when it does not raise. */
  predicate Follows(run: DiagnosisRun, plan: seq<Output>) {
    run.outputs <= plan && (run.outcome.Pass? ==> run.outputs == plan)
  }

  /** Two steps in sequence keep to the concatenation of their plans. */
  lemma ThenFollows(a: DiagnosisRun, b: DiagnosisRun, planA: seq<Output>, planB: seq<Output>)
    requires Follows(a, planA) && Follows(b, planB)
    ensures Follows(Then(a, b), planA + planB)
  {
    if a.outcome.Pass? {
      assert (planA + planB)[..|a.outputs + b.outputs|] == a.outputs + b.outputs;
    } else {
      assert (planA + planB)[..|a.outputs|] == a.outputs;
    }
  }

  /** A family's loop keeps to the files of all `count` priors. */
  lemma FamilyQcFollows(outDir: string, family: string, count: nat, axis1: nat)
    ensures Follows(FamilyQc(outDir, family, count, axis1), FamilyOutputs(outDir, family, count))
  {
    FamilyPrefix(outDir, family, Min(count, axis1), count);
  }

  lemma SeedQcFollows(outDir: string, seedMaps: seq<seq<Image>>, seedCount: nat, ok: bool)
    ensures Follows(SeedQc(outDir, seedMaps, seedCount, ok), FamilyOutputs(outDir, SeedFamily, seedCount))
  {
    FamilyQcFollows(outDir, SeedFamily, seedCount, Axis1(seedMaps));
  }

  lemma MapQcFollows(outDir: string, st: Stacks, priors: nat)
    ensures Follows(MapQc(outDir, st, priors),
                    FamilyOutputs(outDir, DRFamily, priors)
                    + (if Axis1(st.dualIcaMaps) > 0 then FamilyOutputs(outDir, DualIcaFamily, priors) else []))
  {
    FamilyQcFollows(outDir, DRFamily, priors, Axis1(st.drMaps));
    FamilyQcFollows(outDir, DualIcaFamily, priors, Axis1(st.dualIcaMaps));
    ThenFollows(FamilyQc(outDir, DRFamily, priors, Axis1(st.drMaps)),
                if Axis1(st.dualIcaMaps) > 0 then FamilyQc(outDir, DualIcaFamily, priors, Axis1(st.dualIcaMaps)) else Done,
                FamilyOutputs(outDir, DRFamily, priors),
                if Axis1(st.dualIcaMaps) > 0 then FamilyOutputs(outDir, DualIcaFamily, priors) else []);
  }

  /** After the cross-correlation figure, the per-prior QC keeps to the QC plan. */
  lemma PerPriorQcFollows(outDir: string, st: Stacks, priors: nat, seedCount: nat, ok: bool)
    ensures Follows(PerPriorQc(outDir, st, priors, seedCount, ok), QcPlan(outDir, priors, Axis1(st.dualIcaMaps) > 0, seedCount))
  {
    MapQcFollows(outDir, st, priors);
    SeedQcFollows(outDir, st.seedMaps, seedCount, ok);
    ThenFollows(MapQc(outDir, st, priors), SeedQc(outDir, st.seedMaps, seedCount, ok),
                FamilyOutputs(outDir, DRFamily, priors)
                + (if Axis1(st.dualIcaMaps) > 0 then FamilyOutputs(outDir, DualIcaFamily, priors) else []),
                FamilyOutputs(outDir, SeedFamily, seedCount));
  }

  /** The stacked dual-ICA maps have a non-empty axis 1 exactly when the first scan has dual-ICA maps. */
  lemma StackedDualIca(inp: DatasetInputs, mask: Image, load: string -> Image)
    requires Stacked(Scans(inp), mask, load).Ok? && Scans(inp) != []
    ensures Axis1(Stacked(Scans(inp), mask, load).value.dualIcaMaps) > 0 <==> HasDualIca(inp)
  {
    StackedShape(Scans(inp), mask, load);
  }

  lemma StackedQcFollows(inp: DatasetInputs, io: Io, outDir: string, maskFile: string)
    ensures Follows(StackedQc(outDir, Scans(inp), maskFile, io.load(maskFile), inp.seedPriorMaps, io),
                    QcPlan(outDir, PriorCount(inp), HasDualIca(inp), |inp.seedPriorMaps|))
  {
    var mask := io.load(maskFile);
    var stacked := Stacked(Scans(inp), mask, io.load);
    if stacked.Ok? && StacksRectangular(stacked.value) && Scans(inp) != [] {
      StackedDualIca(inp, mask, io.load);
      var seedsOk := SeedPriorsMatch(inp.seedPriorMaps, maskFile, mask, io.resample);
      PerPriorQcFollows(outDir, stacked.value, PriorCount(inp), |inp.seedPriorMaps|, seedsOk);
    }
  }

  lemma AfterOutDirFollows(outDir: string, inp: DatasetInputs, io: Io)
    ensures Follows(AfterOutDir(outDir, inp, io),
                    [Png(CrossCorrelationPath(outDir))] + QcPlan(outDir, PriorCount(inp), HasDualIca(inp), |inp.seedPriorMaps|))
  {
    if TemplateFileKey in inp.maskFileDict && BrainMaskKey in inp.maskFileDict {
      var maskFile := inp.maskFileDict[BrainMaskKey];
      StackedQcFollows(inp, io, outDir, maskFile);
      ThenFollows(DiagnosisRun(Pass, [Png(CrossCorrelationPath(outDir))]),
                  StackedQc(outDir, Scans(inp), maskFile, io.load(maskFile), inp.seedPriorMaps, io),
                  [Png(CrossCorrelationPath(outDir))],
                  QcPlan(outDir, PriorCount(inp), HasDualIca(inp), |inp.seedPriorMaps|));
    }
  }

  // ---------------------------------------------------------------------------
  // The run against the plan

  /**
   * Whatever happens, a run writes a prefix of its plan, in the plan's order: the output
   * directory first, the cross-correlation figure second, then the QC files family by
   * family. A run that succeeds writes its whole plan.
   */
  lemma DiagnoseFollowsPlan(inp: DatasetInputs, io: Io)
    ensures Diagnose(inp, io).outputs <= InputPlan(inp, io)
    ensures Diagnose(inp, io).outcome.Pass? ==> Diagnose(inp, io).outputs == InputPlan(inp, io)
  {
    var outDir := OutDir(io.cwd);
    var qcPlan := QcPlan(outDir, PriorCount(inp), HasDualIca(inp), |inp.seedPriorMaps|);
    var head := [Directory(outDir)];
    var cross := [Png(CrossCorrelationPath(outDir))];
    var dr := FamilyOutputs(outDir, DRFamily, PriorCount(inp));
    var ica := if HasDualIca(inp) then FamilyOutputs(outDir, DualIcaFamily, PriorCount(inp)) else [];
    AppendAssoc(head + cross, dr, ica);
    AppendAssoc(head + cross, dr + ica, FamilyOutputs(outDir, SeedFamily, |inp.seedPriorMaps|));
    AppendAssoc(head, cross, qcPlan);
    assert head + cross == [Directory(outDir), Png(CrossCorrelationPath(outDir))];
    assert InputPlan(inp, io) == head + (cross + qcPlan);
    if |Flatten(inp.spatialInfoList)| >= 3 {
      AfterOutDirFollows(outDir, inp, io);
      ThenFollows(DiagnosisRun(Pass, [Directory(outDir)]), AfterOutDir(outDir, inp, io),
                  [Directory(outDir)], [Png(CrossCorrelationPath(outDir))] + qcPlan);
    }
  }

  /** A cohort of fewer than three scans is refused before anything is written; larger ones create the output directory. */
  lemma SmallCohortWritesNothing(inp: DatasetInputs, io: Io)
    ensures Diagnose(inp, io).outputs == [] <==> |Flatten(inp.spatialInfoList)| < 3
    ensures |Flatten(inp.spatialInfoList)| < 3 ==> Diagnose(inp, io).outcome == Fail(SampleSizeError)
  {
    DiagnoseFollowsPlan(inp, io);
    if |Flatten(inp.spatialInfoList)| >= 3 {
      assert Diagnose(inp, io).outputs[0] == Directory(OutDir(io.cwd));
    }
  }

  // ---------------------------------------------------------------------------
  // One statistics table per prior

  /** `outs` never holds the file `f`. */
  predicate Avoids(outs: seq<Output>, f: Output) {
    forall k :: 0 <= k < |outs| ==> outs[k] != f
  }

  /** A family's files never carry the name of a file of a family with another first letter. */
  lemma FamilyAvoids(outDir: string, other: string, family: string, n: nat, i: nat)
    requires other != [] && family != [] && other[0] != family[0]
    ensures Avoids(FamilyOutputs(outDir, other, n), Png(QcMapsPath(outDir, family, i)))
    ensures Avoids(FamilyOutputs(outDir, other, n), Csv(QcStatsPath(outDir, family, i), 1))
  {
    forall k | 0 <= k < 2 * n
      ensures FamilyOutputs(outDir, other, n)[k] != Png(QcMapsPath(outDir, family, i))
      ensures FamilyOutputs(outDir, other, n)[k] != Csv(QcStatsPath(outDir, family, i), 1)
    {
      var m := k / 2;
      FamilyOutputAt(outDir, other, n, m);
      QcPathFamilyAt(outDir, other, m, 0);
      QcPathFamilyAt(outDir, family, i, 0);
    }
  }

  /** A file that occurs nowhere around a family occurs in the whole sequence only where the family has it. */
  lemma OnlyInFamily(pre: seq<Output>, outDir: string, family: string, n: nat, post: seq<Output>, i: nat, k: nat)
    requires i < n && k < |pre| + 2 * n + |post|
    requires Avoids(pre, Csv(QcStatsPath(outDir, family, i), 1)) && Avoids(post, Csv(QcStatsPath(outDir, family, i), 1))
    requires Avoids(pre, Png(QcMapsPath(outDir, family, i))) && Avoids(post, Png(QcMapsPath(outDir, family, i)))
    ensures (pre + FamilyOutputs(outDir, family, n) + post)[k] == Csv(QcStatsPath(outDir, family, i), 1) <==> k == |pre| + 2 * i + 1
    ensures (pre + FamilyOutputs(outDir, family, n) + post)[k] == Png(QcMapsPath(outDir, family, i)) <==> k == |pre| + 2 * i
  {
    var outs := pre + FamilyOutputs(outDir, family, n) + post;
    if k < |pre| {
      assert outs[k] == pre[k];
    } else if k < |pre| + 2 * n {
      assert outs[k] == FamilyOutputs(outDir, family, n)[k - |pre|];
      FamilyOutputOnce(outDir, family, n, i, k - |pre|);
    } else {
      assert outs[k] == post[k - |pre| - 2 * n];
    }
  }

  /** A sequence built from two parts that both avoid `f` avoids it too. */
  lemma AvoidsAppend(a: seq<Output>, b: seq<Output>, f: Output)
    requires Avoids(a, f) && Avoids(b, f)
    ensures Avoids(a + b, f)
  {
    forall k | 0 <= k < |a + b|
      ensures (a + b)[k] != f
    {
      if k < |a| {
        assert (a + b)[k] == a[k];
      } else {
        assert (a + b)[k] == b[k - |a|];
      }
    }
  }

  /** The three QC families, and whether a run with (or without) dual-ICA maps writes a given one. */
  predicate ActiveFamily(dualIca: bool, family: string) {
    family == DRFamily || (family == DualIcaFamily && dualIca) || family == SeedFamily
  }

  /** How many priors a family's loop runs over: the seed priors for seed connectivity, the priors otherwise. */
  function FamilyCount(priors: nat, seedCount: nat, family: string): nat {
    if family == SeedFamily then seedCount else priors
  }

  /** The plan position of a family's first file: after the directory, the cross-correlation figure and the families before it. */
  function FamilyStart(priors: nat, dualIca: bool, family: string): nat {
    if family == DRFamily then 2
    else if family == DualIcaFamily then 2 + 2 * priors
    else 2 + 2 * priors + (if dualIca then 2 * priors else 0)
  }

  /**
   * The directory and the cross-correlation figure are not QC files of any family. The
   * seed family shares the `s` of `spatial_crosscorrelations`, so the next character tells
   * them apart.
   */
  lemma HeadAvoids(outDir: string, family: string, i: nat)
    requires family == DRFamily || family == DualIcaFamily || family == SeedFamily
    ensures Avoids([Directory(outDir), Png(CrossCorrelationPath(outDir))], Png(QcMapsPath(outDir, family, i)))
    ensures Avoids([Directory(outDir), Png(CrossCorrelationPath(outDir))], Csv(QcStatsPath(outDir, family, i), 1))
  {
    QcPathFamilyAt(outDir, family, i, 0);
    QcPathFamilyAt(outDir, family, i, 1);
    assert CrossCorrelationPath(outDir)[|outDir| + 1] == 's';
    assert CrossCorrelationPath(outDir)[|outDir| + 2] == 'p';
  }

  /** The parts of the plan before and after one family's files. */
  function PlanBefore(outDir: string, priors: nat, dualIca: bool, family: string): seq<Output> {
    [Directory(outDir), Png(CrossCorrelationPath(outDir))]
      + (if family == DRFamily then [] else FamilyOutputs(outDir, DRFamily, priors))
      + (if family == SeedFamily && dualIca then FamilyOutputs(outDir, DualIcaFamily, priors) else [])
  }

  function PlanAfter(outDir: string, priors: nat, dualIca: bool, seedCount: nat, family: string): seq<Output> {
    (if family == DRFamily && dualIca then FamilyOutputs(outDir, DualIcaFamily, priors) else [])
      + (if family == SeedFamily then [] else FamilyOutputs(outDir, SeedFamily, seedCount))
  }

  /** The plan is each active family's files between what comes before and after them. */
  lemma PlanAround(outDir: string, priors: nat, dualIca: bool, seedCount: nat, family: string)
    requires ActiveFamily(dualIca, family)
    ensures Plan(outDir, priors, dualIca, seedCount)
         == PlanBefore(outDir, priors, dualIca, family)
            + FamilyOutputs(outDir, family, FamilyCount(priors, seedCount, family))
            + PlanAfter(outDir, priors, dualIca, seedCount, family)
    ensures |PlanBefore(outDir, priors, dualIca, family)| == FamilyStart(priors, dualIca, family)
  {
    var head := [Directory(outDir), Png(CrossCorrelationPath(outDir))];
    var dr := FamilyOutputs(outDir, DRFamily, priors);
    var ica := if dualIca then FamilyOutputs(outDir, DualIcaFamily, priors) else [];
    var seed := FamilyOutputs(outDir, SeedFamily, seedCount);
    if family == DRFamily {
      AppendAssoc(head + dr, ica, seed);
      assert PlanBefore(outDir, priors, dualIca, family) == head;
    } else if family == DualIcaFamily {
      assert PlanBefore(outDir, priors, dualIca, family) == head + dr;
    } else {
      AppendAssoc(head + dr + ica, seed, []);
    }
  }

  /** Nothing before or after a family's files carries the name of one of them. */
  lemma AroundAvoids(outDir: string, priors: nat, dualIca: bool, seedCount: nat, family: string, f: Output)
    requires family == DRFamily || family == DualIcaFamily || family == SeedFamily
    requires family != DRFamily ==> Avoids(FamilyOutputs(outDir, DRFamily, priors), f)
    requires family != DualIcaFamily ==> Avoids(FamilyOutputs(outDir, DualIcaFamily, priors), f)
    requires family != SeedFamily ==> Avoids(FamilyOutputs(outDir, SeedFamily, seedCount), f)
    requires Avoids([Directory(outDir), Png(CrossCorrelationPath(outDir))], f)
    ensures Avoids(PlanBefore(outDir, priors, dualIca, family), f)
    ensures Avoids(PlanAfter(outDir, priors, dualIca, seedCount, family), f)
  {
    var head := [Directory(outDir), Png(CrossCorrelationPath(outDir))];
    var mid := if family == DRFamily then [] else FamilyOutputs(outDir, DRFamily, priors);
    var last := if family == SeedFamily && dualIca then FamilyOutputs(outDir, DualIcaFamily, priors) else [];
    AvoidsAppend(head, mid, f);
    AvoidsAppend(head + mid, last, f);
    var first := if family == DRFamily && dualIca then FamilyOutputs(outDir, DualIcaFamily, priors) else [];
    var seed := if family == SeedFamily then [] else FamilyOutputs(outDir, SeedFamily, seedCount);
    AvoidsAppend(first, seed, f);
  }

  /** No other family's files carry the name of prior `i`'s figure or table in `family`. */
  lemma OtherFamiliesAvoid(outDir: string, priors: nat, seedCount: nat, family: string, i: nat)
    requires family == DRFamily || family == DualIcaFamily || family == SeedFamily
    ensures family != DRFamily ==>
      Avoids(FamilyOutputs(outDir, DRFamily, priors), Png(QcMapsPath(outDir, family, i))) &&
      Avoids(FamilyOutputs(outDir, DRFamily, priors), Csv(QcStatsPath(outDir, family, i), 1))
    ensures family != DualIcaFamily ==>
      Avoids(FamilyOutputs(outDir, DualIcaFamily, priors), Png(QcMapsPath(outDir, family, i))) &&
      Avoids(FamilyOutputs(outDir, DualIcaFamily, priors), Csv(QcStatsPath(outDir, family, i), 1))
    ensures family != SeedFamily ==>
      Avoids(FamilyOutputs(outDir, SeedFamily, seedCount), Png(QcMapsPath(outDir, family, i))) &&
      Avoids(FamilyOutputs(outDir, SeedFamily, seedCount), Csv(QcStatsPath(outDir, family, i), 1))
  {
    if family != DRFamily {
      FamilyAvoids(outDir, DRFamily, family, priors, i);
    }
    if family != DualIcaFamily {
      FamilyAvoids(outDir, DualIcaFamily, family, priors, i);
    }
    if family != SeedFamily {
      FamilyAvoids(outDir, SeedFamily, family, seedCount, i);
    }
  }

  /**
   * In the plan, prior `i`'s table of an active family sits at one position only, right
   * after its figure: `3 + 2i` and `2 + 2i` for dual regression, shifted by the files of
   * the families written before it for dual ICA and seed connectivity.
   */
  lemma PlanStatsTableOnce(outDir: string, p: nat, dualIca: bool, seedCount: nat, family: string, i: nat, k: nat)
    requires ActiveFamily(dualIca, family)
    requires i < FamilyCount(p, seedCount, family) && k < |Plan(outDir, p, dualIca, seedCount)|
    ensures Plan(outDir, p, dualIca, seedCount)[k] == Csv(QcStatsPath(outDir, family, i), 1)
        <==> k == FamilyStart(p, dualIca, family) + 2 * i + 1
    ensures Plan(outDir, p, dualIca, seedCount)[k] == Png(QcMapsPath(outDir, family, i))
        <==> k == FamilyStart(p, dualIca, family) + 2 * i
  {
    var figure := Png(QcMapsPath(outDir, family, i));
    var table := Csv(QcStatsPath(outDir, family, i), 1);
    PlanAround(outDir, p, dualIca, seedCount, family);
    HeadAvoids(outDir, family, i);
    OtherFamiliesAvoid(outDir, p, seedCount, family, i);
    AroundAvoids(outDir, p, dualIca, seedCount, family, figure);
    AroundAvoids(outDir, p, dualIca, seedCount, family, table);
    OnlyInFamily(PlanBefore(outDir, p, dualIca, family), outDir, family, FamilyCount(p, seedCount, family),
                 PlanAfter(outDir, p, dualIca, seedCount, family), i, k);
  }

  /**
   * In a successful run, each prior's statistics table of every family the run writes
   * (dual regression, dual ICA when present, seed connectivity) is written exactly once,
   * right after its QC figure.
   */
  lemma OneStatsTablePerPrior(inp: DatasetInputs, io: Io, family: string, i: nat, k: nat)
    requires Diagnose(inp, io).outcome.Pass?
    requires ActiveFamily(HasDualIca(inp), family)
    requires i < FamilyCount(PriorCount(inp), |inp.seedPriorMaps|, family) && k < |Diagnose(inp, io).outputs|
    ensures var outDir := OutDir(io.cwd);
      var start := FamilyStart(PriorCount(inp), HasDualIca(inp), family);
      && (Diagnose(inp, io).outputs[k] == Csv(QcStatsPath(outDir, family, i), 1) <==> k == start + 2 * i + 1)
      && (Diagnose(inp, io).outputs[k] == Png(QcMapsPath(outDir, family, i)) <==> k == start + 2 * i)
  {
    DiagnoseFollowsPlan(inp, io);
    PlanStatsTableOnce(OutDir(io.cwd), PriorCount(inp), HasDualIca(inp), |inp.seedPriorMaps|, family, i, k);
  }

  // ---------------------------------------------------------------------------
  // When a run succeeds

  /**
   * Every check of a run passes: at least three scans, both mask-bundle keys, seed maps of
   * the brain mask's shape, stacks that numpy can build, a scan to take the prior count
   * from, enough dual-regression (and, when present, dual-ICA) components for every
   * prior, and, when seed priors are given, resampled priors of the mask's shape, seed
   * maps that stack, and enough of them for every seed prior.
   */
  predicate Succeeds(inp: DatasetInputs, io: Io) {
    && |Flatten(inp.spatialInfoList)| >= 3
    && TemplateFileKey in inp.maskFileDict && BrainMaskKey in inp.maskFileDict
    && var maskFile := inp.maskFileDict[BrainMaskKey];
       var mask := io.load(maskFile);
       var stacked := Stacked(Scans(inp), mask, io.load);
       && stacked.Ok? && StacksRectangular(stacked.value) && Scans(inp) != []
       && PriorCount(inp) <= Axis1(stacked.value.drMaps)
       && (Axis1(stacked.value.dualIcaMaps) > 0 ==> PriorCount(inp) <= Axis1(stacked.value.dualIcaMaps))
       && (|inp.seedPriorMaps| > 0 ==>
             && SeedPriorsMatch(inp.seedPriorMaps, maskFile, mask, io.resample)
             && Rectangular3(stacked.value.seedMaps)
             && |inp.seedPriorMaps| <= Axis1(stacked.value.seedMaps))
  }

  /** Two steps in sequence pass exactly when both pass. */
  lemma ThenPasses(a: DiagnosisRun, b: DiagnosisRun)
    ensures Then(a, b).outcome.Pass? <==> a.outcome.Pass? && b.outcome.Pass?
  {
  }

  /** The per-prior QC passes exactly when every loop stays within axis 1 of its stack and the seed checks hold. */
  lemma PerPriorQcPasses(outDir: string, st: Stacks, priors: nat, seedCount: nat, ok: bool)
    ensures PerPriorQc(outDir, st, priors, seedCount, ok).outcome.Pass? <==>
      && priors <= Axis1(st.drMaps)
      && (Axis1(st.dualIcaMaps) > 0 ==> priors <= Axis1(st.dualIcaMaps))
      && (seedCount > 0 ==> ok && Rectangular3(st.seedMaps) && seedCount <= Axis1(st.seedMaps))
  {
    var ica := if Axis1(st.dualIcaMaps) > 0 then FamilyQc(outDir, DualIcaFamily, priors, Axis1(st.dualIcaMaps)) else Done;
    ThenPasses(FamilyQc(outDir, DRFamily, priors, Axis1(st.drMaps)), ica);
    ThenPasses(MapQc(outDir, st, priors), SeedQc(outDir, st.seedMaps, seedCount, ok));
  }

  /** From the stacked lists on, a run passes exactly when the stacking and per-prior checks of `Succeeds` hold. */
  lemma StackedQcPasses(inp: DatasetInputs, io: Io, outDir: string, maskFile: string)
    ensures
      var mask := io.load(maskFile);
      var stacked := Stacked(Scans(inp), mask, io.load);
      StackedQc(outDir, Scans(inp), maskFile, mask, inp.seedPriorMaps, io).outcome.Pass? <==>
        && stacked.Ok? && StacksRectangular(stacked.value) && Scans(inp) != []
        && PriorCount(inp) <= Axis1(stacked.value.drMaps)
        && (Axis1(stacked.value.dualIcaMaps) > 0 ==> PriorCount(inp) <= Axis1(stacked.value.dualIcaMaps))
        && (|inp.seedPriorMaps| > 0 ==>
              && SeedPriorsMatch(inp.seedPriorMaps, maskFile, mask, io.resample)
              && Rectangular3(stacked.value.seedMaps)
              && |inp.seedPriorMaps| <= Axis1(stacked.value.seedMaps))
  {
    var mask := io.load(maskFile);
    var stacked := Stacked(Scans(inp), mask, io.load);
    if stacked.Ok? && StacksRectangular(stacked.value) && Scans(inp) != [] {
      var seedsOk := SeedPriorsMatch(inp.seedPriorMaps, maskFile, mask, io.resample);
      PerPriorQcPasses(outDir, stacked.value, PriorCount(inp), |inp.seedPriorMaps|, seedsOk);
    }
  }

  /** A run raises nothing exactly when every one of its checks passes. */
  lemma DiagnosePasses(inp: DatasetInputs, io: Io)
    ensures Diagnose(inp, io).outcome.Pass? <==> Succeeds(inp, io)
  {
    var outDir := OutDir(io.cwd);
    ThenPasses(DiagnosisRun(Pass, [Directory(outDir)]), AfterOutDir(outDir, inp, io));
    if |Flatten(inp.spatialInfoList)| >= 3 && TemplateFileKey in inp.maskFileDict && BrainMaskKey in inp.maskFileDict {
      var maskFile := inp.maskFileDict[BrainMaskKey];
      var qc := StackedQc(outDir, Scans(inp), maskFile, io.load(maskFile), inp.seedPriorMaps, io);
      ThenPasses(DiagnosisRun(Pass, [Png(CrossCorrelationPath(outDir))]), qc);
      StackedQcPasses(inp, io, outDir, maskFile);
    }
  }

  // ---------------------------------------------------------------------------
  // Scenarios

  /** Two priors, no dual ICA, no seeds: the directory, the cross-correlation figure, and the figure and table of priors 0 and 1. */
  lemma TwoPriorPlan(outDir: string)
    ensures Plan(outDir, 2, false, 0) == [
      Directory(outDir), Png(CrossCorrelationPath(outDir)),
      Png(QcMapsPath(outDir, DRFamily, 0)), Csv(QcStatsPath(outDir, DRFamily, 0), 1),
      Png(QcMapsPath(outDir, DRFamily, 1)), Csv(QcStatsPath(outDir, DRFamily, 1), 1)]
  {
    var dr := FamilyOutputs(outDir, DRFamily, 2);
    assert Plan(outDir, 2, false, 0) == [Directory(outDir), Png(CrossCorrelationPath(outDir))] + dr;
    assert FamilyOutputs(outDir, DRFamily, 1) == [] + [Png(QcMapsPath(outDir, DRFamily, 0)), Csv(QcStatsPath(outDir, DRFamily, 0), 1)];
  }

  /**
   * A run with two priors, no dual-ICA maps and no seed priors whose checks all pass writes
   * the output directory, the cross-correlation figure, and the figure and table of
   * dual-regression priors 0 and 1, in that order, and raises nothing.
   */
  lemma TwoPriorRun(inp: DatasetInputs, io: Io)
    requires Succeeds(inp, io) && PriorCount(inp) == 2 && !HasDualIca(inp) && inp.seedPriorMaps == []
    ensures var outDir := OutDir(io.cwd);
      Diagnose(inp, io) == DiagnosisRun(Pass, [
        Directory(outDir), Png(CrossCorrelationPath(outDir)),
        Png(QcMapsPath(outDir, DRFamily, 0)), Csv(QcStatsPath(outDir, DRFamily, 0), 1),
        Png(QcMapsPath(outDir, DRFamily, 1)), Csv(QcStatsPath(outDir, DRFamily, 1), 1)])
  {
    DiagnosePasses(inp, io);
    DiagnoseFollowsPlan(inp, io);
    TwoPriorPlan(OutDir(io.cwd));
  }

  /** The table of prior 1 in the dual-regression family, spelled out. */
  lemma SecondDRTableName(outDir: string)
    ensures QcStatsPath(outDir, DRFamily, 1) == outDir + "/DR1_QC_stats.csv"
  {
    QcPathsRegrouped(outDir, DRFamily, 1);
    assert NatToDecimal(1) == "1";
    assert "/" + DRFamily + "1" + "_QC_stats.csv" == "/DR1_QC_stats.csv";
  }

  /** A QC file name is the output directory followed by one relative part. */
  lemma QcPathsRegrouped(outDir: string, family: string, i: nat)
    ensures QcMapsPath(outDir, family, i) == outDir + ("/" + family + NatToDecimal(i) + "_QC_maps.png")
    ensures QcStatsPath(outDir, family, i) == outDir + ("/" + family + NatToDecimal(i) + "_QC_stats.csv")
  {
    var digits := NatToDecimal(i);
    AppendAssoc(outDir + "/", family, digits);
    AppendAssoc(outDir, "/", family + digits);
    AppendAssoc(outDir, "/" + (family + digits), "_QC_maps.png");
    AppendAssoc(outDir, "/" + (family + digits), "_QC_stats.csv");
    AppendAssoc("/", family, digits);
  }

  /**
   * Two priors over a single stacked dual-ICA component: the dual-ICA loop still runs over
   * both priors, so after the `dual_ICA0` files the second index is out of bounds.
   */
  lemma DualIcaShortOfPriors(outDir: string, st: Stacks, seedCount: nat, ok: bool)
    requires Axis1(st.drMaps) >= 2 && Axis1(st.dualIcaMaps) == 1
    ensures PerPriorQc(outDir, st, 2, seedCount, ok)
         == DiagnosisRun(Fail(AxisIndexError), FamilyOutputs(outDir, DRFamily, 2) + FamilyOutputs(outDir, DualIcaFamily, 1))
  {
  }

  /**
   * A mask bundle built by PrepMasks has the two keys the dataset diagnosis reads, so a
   * cohort of at least three scans gets past them and the cross-correlation figure is written.
   */
  lemma PreparedMasksReachCrossCorrelation(maskDictList: seq<seq<map<string, string>>>, priorMaps: string, dsurqeRegions: bool,
                                            env: map<string, string>, cwd: string,
                                            resampleMask: (string, string) -> string, resampleIC: (string, string) -> string,
                                            inp: DatasetInputs, io: Io)
    requires PrepMasksInterface.PrepareMasks(maskDictList, priorMaps, dsurqeRegions, env, cwd, resampleMask, resampleIC).bundle.Ok?
    requires inp.maskFileDict == PrepMasksInterface.PrepareMasks(maskDictList, priorMaps, dsurqeRegions, env, cwd, resampleMask, resampleIC).bundle.value
    requires |Flatten(inp.spatialInfoList)| >= 3
    ensures |Diagnose(inp, io).outputs| >= 2
    ensures Diagnose(inp, io).outputs[1] == Png(CrossCorrelationPath(OutDir(io.cwd)))
  {
    PrepMasksInterface.BundleServesDatasetDiagnosis(maskDictList, priorMaps, dsurqeRegions, env, cwd, resampleMask, resampleIC);
  }
}
