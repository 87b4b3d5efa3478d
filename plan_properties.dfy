/**
 * What the stage pipeline guarantees: label threading, slot allocation in
 * request order, one fragment per stage in the fixed stage order, the crop
 * geometry, the shapes of the two templates and of the subtitle stage, and
 * that unrecognised option values behave exactly like absent ones.
 */
module PlanProperties {
  import opened Wrappers
  import opened Strings
  import opened RenderPlan

  // ---------------------------------------------------------------------
  // Running a list of stages
  // ---------------------------------------------------------------------

  /** Running two stage lists one after the other is running their concatenation. */
  lemma {:induction false} RunAppend(c: Chain, a: seq<Stage>, b: seq<Stage>)
    ensures Run(c, a + b) == Run(Run(c, a), b)
    decreases |a|
  {
    if a == [] {
      assert a + b == b;
    } else {
      assert (a + b)[1..] == a[1..] + b;
      RunAppend(Step(c, a[0]), a[1..], b);
    }
  }

  /** Running a single stage is one step. */
  lemma RunSingle(c: Chain, s: Stage)
    ensures Run(c, [s]) == Step(c, s)
  {
    assert [s][1..] == [];
  }

  /** Running two stages is two steps. */
  lemma RunPair(c: Chain, a: Stage, b: Stage)
    ensures Run(c, [a, b]) == Step(Step(c, a), b)
  {
    assert [a, b][1..] == [b];
    RunSingle(Step(c, a), b);
  }

  /** The asset files a stage list reads, in order. */
  function AssetsOf(stages: seq<Stage>): seq<string>
  {
    if stages == [] then []
    else (match AssetOf(stages[0]) case Some(p) => [p] case None => []) + AssetsOf(stages[1..])
  }

  lemma {:induction false} AssetsOfAppend(a: seq<Stage>, b: seq<Stage>)
    ensures AssetsOf(a + b) == AssetsOf(a) + AssetsOf(b)
    decreases |a|
  {
    if a != [] {
      assert (a + b)[1..] == a[1..] + b;
      AssetsOfAppend(a[1..], b);
    } else {
      assert a + b == b;
    }
  }

  /** One step appends one fragment reading the current label, and allocates its asset if any. */
  lemma StepRecordsStage(c: Chain, s: Stage)
    ensures Step(c, s).fragments == c.fragments + [Fragment(c.current, s, if AssetOf(s).Some? then c.nextInput else 0)]
    ensures Step(c, s).assets == c.assets + AssetsOf([s])
    ensures Step(c, s).current == OutLabel(s)
  {
  }

  /** Running stages appends one fragment per stage and never touches earlier fragments. */
  lemma {:induction false} RunKeepsPrefix(c: Chain, stages: seq<Stage>)
    ensures |Run(c, stages).fragments| == |c.fragments| + |stages|
    ensures Run(c, stages).fragments[..|c.fragments|] == c.fragments
    decreases |stages|
  {
    if stages != [] {
      var c' := Step(c, stages[0]);
      var n := |c.fragments|;
      StepRecordsStage(c, stages[0]);
      RunKeepsPrefix(c', stages[1..]);
      var f := Run(c', stages[1..]).fragments;
      assert f[..n] == f[..n + 1][..n];
    }
  }

  /** The fragment a run appends for its i-th stage records that stage. */
  lemma {:induction false} RunRecordsStageAt(c: Chain, stages: seq<Stage>, i: nat)
    requires i < |stages|
    ensures |Run(c, stages).fragments| == |c.fragments| + |stages|
    ensures Run(c, stages).fragments[|c.fragments| + i].stage == stages[i]
    decreases |stages|
  {
    RunKeepsPrefix(c, stages);
    var c' := Step(c, stages[0]);
    assert Run(c, stages) == Run(c', stages[1..]);
    StepRecordsStage(c, stages[0]);
    if i == 0 {
      RunKeepsPrefix(c', stages[1..]);
      var f := Run(c', stages[1..]).fragments;
      assert f[|c.fragments|] == f[..|c'.fragments|][|c.fragments|];
    } else {
      RunRecordsStageAt(c', stages[1..], i - 1);
      assert |c'.fragments| + (i - 1) == |c.fragments| + i;
    }
  }

  lemma AssetsOfCons(stages: seq<Stage>)
    requires stages != []
    ensures AssetsOf(stages) == AssetsOf([stages[0]]) + AssetsOf(stages[1..])
  {
    assert [stages[0]][1..] == [];
  }

  /** A run allocates exactly the assets of its stages, in order. */
  lemma {:induction false} RunAllocatesAssets(c: Chain, stages: seq<Stage>)
    ensures Run(c, stages).assets == c.assets + AssetsOf(stages)
    decreases |stages|
  {
    if stages == [] {
      assert c.assets + [] == c.assets;
    } else {
      var s, rest := stages[0], stages[1..];
      StepRecordsStage(c, s);
      RunAllocatesAssets(Step(c, s), rest);
      AssetsOfCons(stages);
      assert (c.assets + AssetsOf([s])) + AssetsOf(rest) == c.assets + (AssetsOf([s]) + AssetsOf(rest));
    }
  }

  // ---------------------------------------------------------------------
  // Label threading
  // ---------------------------------------------------------------------

  /**
   * The first fragment reads `start`, each later fragment reads the label
   * its predecessor wrote, and the current label is the last label written
   * (or `start` when nothing was emitted).
   */
  ghost predicate Threaded(c: Chain, start: string)
  {
    && (c.fragments == [] ==> c.current == start)
    && (c.fragments != [] ==>
          c.fragments[0].input == start && c.current == Output(c.fragments[|c.fragments| - 1]))
    && forall i :: 0 < i < |c.fragments| ==> c.fragments[i].input == Output(c.fragments[i - 1])
  }

  lemma {:induction false} RunThreaded(c: Chain, stages: seq<Stage>, start: string)
    requires Threaded(c, start)
    ensures Threaded(Run(c, stages), start)
    decreases |stages|
  {
    if stages != [] {
      var c' := Step(c, stages[0]);
      assert Threaded(c', start) by {
        var n := |c.fragments|;
        assert c'.fragments[n].input == c.current;
        forall i | 0 < i < |c'.fragments|
          ensures c'.fragments[i].input == Output(c'.fragments[i - 1])
        {
          if i < n {
            assert c'.fragments[i] == c.fragments[i] && c'.fragments[i - 1] == c.fragments[i - 1];
          }
        }
      }
      RunThreaded(c', stages[1..], start);
    }
  }

  // ---------------------------------------------------------------------
  // Input slots
  // ---------------------------------------------------------------------

  /** How many of the fragments read an asset input. */
  function AssetCount(fragments: seq<Fragment>): nat
  {
    if fragments == [] then 0
    else
      var last := fragments[|fragments| - 1];
      AssetCount(fragments[..|fragments| - 1]) + (if AssetOf(last.stage).Some? then 1 else 0)
  }

  /**
   * Slots are handed out in request order: the fragment reading the n-th
   * asset (counting from 1) reads slot n, slot n holds that asset's file, and
   * the next free slot is one past the assets allocated so far.
   */
  ghost predicate SlotsInOrder(c: Chain)
  {
    && c.nextInput == |c.assets| + 1
    && |c.assets| == AssetCount(c.fragments)
    && forall i :: 0 <= i < |c.fragments| && AssetOf(c.fragments[i].stage).Some? ==>
         && c.fragments[i].slot == AssetCount(c.fragments[..i]) + 1
         && c.fragments[i].slot - 1 < |c.assets|
         && c.assets[c.fragments[i].slot - 1] == AssetOf(c.fragments[i].stage).value
  }

  lemma StepSlotsInOrder(c: Chain, s: Stage)
    requires SlotsInOrder(c)
    ensures SlotsInOrder(Step(c, s))
  {
    var c' := Step(c, s);
    var n := |c.fragments|;
    assert c'.fragments[..n] == c.fragments;
    forall i | 0 <= i < |c'.fragments| && AssetOf(c'.fragments[i].stage).Some?
      ensures && c'.fragments[i].slot == AssetCount(c'.fragments[..i]) + 1
              && c'.fragments[i].slot - 1 < |c'.assets|
              && c'.assets[c'.fragments[i].slot - 1] == AssetOf(c'.fragments[i].stage).value
    {
      if i < n {
        assert c'.fragments[..i] == c.fragments[..i];
        assert c'.fragments[i] == c.fragments[i];
      }
    }
  }

  lemma {:induction false} RunSlotsInOrder(c: Chain, stages: seq<Stage>)
    requires SlotsInOrder(c)
    ensures SlotsInOrder(Run(c, stages))
    decreases |stages|
  {
    if stages != [] {
      StepSlotsInOrder(c, stages[0]);
      RunSlotsInOrder(Step(c, stages[0]), stages[1..]);
    }
  }

  /** An asset fragment at i is counted by every longer prefix. */
  lemma {:induction false} AssetCountGrows(fragments: seq<Fragment>, i: nat, j: nat)
    requires i < j <= |fragments| && AssetOf(fragments[i].stage).Some?
    ensures AssetCount(fragments[..i]) + 1 <= AssetCount(fragments[..j])
    decreases j
  {
    var p := fragments[..j];
    assert p[..j - 1] == fragments[..j - 1];
    if j > i + 1 {
      AssetCountGrows(fragments, i, j - 1);
    }
  }

  /**
   * Two different asset fragments never share a slot or a slot label. This
   * matters for arbitrary stage lists: a compiled chain holds at most one
   * asset (CompileAssets), so there it holds vacuously.
   */
  lemma SlotsNeverReused(c: Chain, i: nat, j: nat)
    requires SlotsInOrder(c)
    requires i < j < |c.fragments|
    requires AssetOf(c.fragments[i].stage).Some? && AssetOf(c.fragments[j].stage).Some?
    ensures c.fragments[i].slot < c.fragments[j].slot
    ensures SlotLabel(c.fragments[i].slot) != SlotLabel(c.fragments[j].slot)
  {
    AssetCountGrows(c.fragments, i, j);
    var a, b := c.fragments[i].slot, c.fragments[j].slot;
    if SlotLabel(a) == SlotLabel(b) {
      var la, lb := SlotLabel(a), SlotLabel(b);
      assert la[1..|la| - 3] == NatToString(a);
      assert lb[1..|lb| - 3] == NatToString(b);
      NatToStringInjective(a, b);
    }
  }

  /** The slot an asset fragment reads holds that fragment's asset file. */
  lemma SlotHoldsAsset(c: Chain, i: nat)
    requires SlotsInOrder(c) && i < |c.fragments| && AssetOf(c.fragments[i].stage).Some?
    ensures 1 <= c.fragments[i].slot <= |c.assets|
    ensures c.assets[c.fragments[i].slot - 1] == AssetOf(c.fragments[i].stage).value
  {
  }

  // ---------------------------------------------------------------------
  // The compiled chain
  // ---------------------------------------------------------------------

  /**
   * The compiled chain has one fragment per planned stage in stage order,
   * threads the video label from `[0:v]`, and allocates slots in order.
   */
  lemma CompileInvariants(cfg: RenderConfig, info: VideoInfo, srtPath: string,
                          brandAssetPresent: bool, watermarkAssetPresent: bool)
    ensures var c := Compile(cfg, info, srtPath, brandAssetPresent, watermarkAssetPresent);
            var stages := PlannedStages(cfg, info, srtPath, brandAssetPresent, watermarkAssetPresent);
            && |c.fragments| == |stages|
            && (forall i :: 0 <= i < |stages| ==> c.fragments[i].stage == stages[i])
            && Threaded(c, SourceVideo)
            && SlotsInOrder(c)
  {
    var stages := PlannedStages(cfg, info, srtPath, brandAssetPresent, watermarkAssetPresent);
    var c := Run(Initial, stages);
    RunKeepsPrefix(Initial, stages);
    forall i | 0 <= i < |stages|
      ensures c.fragments[i].stage == stages[i]
    {
      RunRecordsStageAt(Initial, stages, i);
    }
    RunThreaded(Initial, stages, SourceVideo);
    RunSlotsInOrder(Initial, stages);
  }

  /** In the compiled chain the slot an asset fragment reads holds that fragment's asset file. */
  lemma CompiledSlotHoldsAsset(cfg: RenderConfig, info: VideoInfo, srtPath: string,
                               brandAssetPresent: bool, watermarkAssetPresent: bool, i: nat)
    requires var c := Compile(cfg, info, srtPath, brandAssetPresent, watermarkAssetPresent);
             i < |c.fragments| && AssetOf(c.fragments[i].stage).Some?
    ensures var c := Compile(cfg, info, srtPath, brandAssetPresent, watermarkAssetPresent);
            && 1 <= c.fragments[i].slot <= |c.assets|
            && c.assets[c.fragments[i].slot - 1] == AssetOf(c.fragments[i].stage).value
  {
    CompileInvariants(cfg, info, srtPath, brandAssetPresent, watermarkAssetPresent);
    SlotHoldsAsset(Compile(cfg, info, srtPath, brandAssetPresent, watermarkAssetPresent), i);
  }

  /**
   * Where a stage stands in the fixed order: crop, zoom, the template's first
   * stage (bar or border), the template's second stage, subtitles.
   */
  function StageRank(s: Stage): nat
  {
    match s
    case CenterCrop(_, _, _) => 0
    case Zoom => 1
    case BrandBarOverlay => 2
    case BrandBarFallback => 2
    case Border => 2
    case BrandText => 3
    case WatermarkOverlay => 3
    case WatermarkSkipped => 3
    case Subtitles(_, _) => 4
  }

  /** Stages that write the same label stand at the same place in the order. */
  lemma SameLabelSameRank(s: Stage, t: Stage)
    requires OutLabel(s) == OutLabel(t)
    ensures StageRank(s) == StageRank(t)
  {
  }

  ghost predicate RanksIncrease(stages: seq<Stage>)
  {
    forall i, j :: 0 <= i < j < |stages| ==> StageRank(stages[i]) < StageRank(stages[j])
  }

  ghost predicate RanksWithin(stages: seq<Stage>, lo: nat, hi: nat)
  {
    forall i :: 0 <= i < |stages| ==> lo <= StageRank(stages[i]) < hi
  }

  /** Two increasing stage lists in consecutive rank bands concatenate to an increasing list. */
  lemma ConcatRanks(a: seq<Stage>, b: seq<Stage>, lo: nat, mid: nat, hi: nat)
    requires lo <= mid <= hi
    requires RanksIncrease(a) && RanksWithin(a, lo, mid)
    requires RanksIncrease(b) && RanksWithin(b, mid, hi)
    ensures RanksIncrease(a + b) && RanksWithin(a + b, lo, hi)
  {
    var ab := a + b;
    forall i, j | 0 <= i < j < |ab|
      ensures StageRank(ab[i]) < StageRank(ab[j])
    {
      if j < |a| {
        assert ab[i] == a[i] && ab[j] == a[j];
      } else if i >= |a| {
        assert ab[i] == b[i - |a|] && ab[j] == b[j - |a|];
      } else {
        assert ab[i] == a[i] && ab[j] == b[j - |a|];
      }
    }
    forall i | 0 <= i < |ab|
      ensures lo <= StageRank(ab[i]) < hi
    {
      if i < |a| {
        assert ab[i] == a[i];
      } else {
        assert ab[i] == b[i - |a|];
      }
    }
  }

  lemma CropRanks(cfg: RenderConfig, info: VideoInfo)
    ensures RanksIncrease(CropStages(cfg, info)) && RanksWithin(CropStages(cfg, info), 0, 1)
  {
  }

  lemma ZoomRanks(cfg: RenderConfig)
    ensures RanksIncrease(ZoomStages(cfg)) && RanksWithin(ZoomStages(cfg), 1, 2)
  {
  }

  lemma TemplateRanks(cfg: RenderConfig, brandAssetPresent: bool, watermarkAssetPresent: bool)
    ensures var tmpl := TemplateStages(cfg, brandAssetPresent, watermarkAssetPresent);
            RanksIncrease(tmpl) && RanksWithin(tmpl, 2, 4)
  {
  }

  lemma SubtitleRanks(cfg: RenderConfig, srtPath: string)
    ensures RanksIncrease(SubtitleStages(cfg, srtPath)) && RanksWithin(SubtitleStages(cfg, srtPath), 4, 5)
  {
  }

  /** The planned stages stand in strictly increasing order. */
  lemma PlannedRanksIncrease(cfg: RenderConfig, info: VideoInfo, srtPath: string,
                             brandAssetPresent: bool, watermarkAssetPresent: bool)
    ensures RanksIncrease(PlannedStages(cfg, info, srtPath, brandAssetPresent, watermarkAssetPresent))
  {
    var crop, zoom := CropStages(cfg, info), ZoomStages(cfg);
    var tmpl, subs := TemplateStages(cfg, brandAssetPresent, watermarkAssetPresent), SubtitleStages(cfg, srtPath);
    CropRanks(cfg, info);
    ZoomRanks(cfg);
    TemplateRanks(cfg, brandAssetPresent, watermarkAssetPresent);
    SubtitleRanks(cfg, srtPath);
    ConcatRanks(crop, zoom, 0, 1, 2);
    ConcatRanks(crop + zoom, tmpl, 0, 2, 4);
    ConcatRanks(crop + zoom + tmpl, subs, 0, 4, 5);
  }

  /**
   * Every label the compiled chain writes is fresh: no two fragments write the
   * same label, and none writes the source video's `[0:v]`, so each label a
   * fragment reads names exactly one stream of the graph.
   */
  lemma CompiledOutputsFresh(cfg: RenderConfig, info: VideoInfo, srtPath: string,
                             brandAssetPresent: bool, watermarkAssetPresent: bool)
    ensures var c := Compile(cfg, info, srtPath, brandAssetPresent, watermarkAssetPresent);
            && (forall i, j :: 0 <= i < j < |c.fragments| ==> Output(c.fragments[i]) != Output(c.fragments[j]))
            && (forall j :: 0 <= j < |c.fragments| ==> Output(c.fragments[j]) != SourceVideo)
  {
    var c := Compile(cfg, info, srtPath, brandAssetPresent, watermarkAssetPresent);
    var stages := PlannedStages(cfg, info, srtPath, brandAssetPresent, watermarkAssetPresent);
    CompileInvariants(cfg, info, srtPath, brandAssetPresent, watermarkAssetPresent);
    PlannedRanksIncrease(cfg, info, srtPath, brandAssetPresent, watermarkAssetPresent);
    forall j | 0 <= j < |c.fragments|
      ensures Output(c.fragments[j]) != SourceVideo
    {
      OutLabelIsFresh(c.fragments[j].stage);
    }
    forall i, j | 0 <= i < j < |c.fragments|
      ensures Output(c.fragments[i]) != Output(c.fragments[j])
    {
      assert StageRank(stages[i]) < StageRank(stages[j]);
      if Output(c.fragments[i]) == Output(c.fragments[j]) {
        SameLabelSameRank(c.fragments[i].stage, c.fragments[j].stage);
      }
    }
  }

  /**
   * The only asset ever allocated is the brand bar (template_1) or the
   * watermark (template_2), when present; so at most one input is added
   * after the source video and it takes slot 1.
   */
  lemma CompileAssets(cfg: RenderConfig, info: VideoInfo, srtPath: string,
                      brandAssetPresent: bool, watermarkAssetPresent: bool)
    ensures var c := Compile(cfg, info, srtPath, brandAssetPresent, watermarkAssetPresent);
            && c.assets ==
                 (if cfg.templateId == Some("template_1") && brandAssetPresent then [BrandBarAsset]
                  else if cfg.templateId == Some("template_2") && watermarkAssetPresent then [WatermarkAsset]
                  else [])
            && |c.assets| <= 1
            && c.nextInput == |c.assets| + 1
  {
    var stages := PlannedStages(cfg, info, srtPath, brandAssetPresent, watermarkAssetPresent);
    var c := Compile(cfg, info, srtPath, brandAssetPresent, watermarkAssetPresent);
    assert c == Run(Initial, stages);
    RunAllocatesAssets(Initial, stages);
    OnlyTemplatesReadAssets(cfg, info, srtPath, brandAssetPresent, watermarkAssetPresent);
    TemplateAssets(cfg, brandAssetPresent, watermarkAssetPresent);
    RunSlotsInOrder(Initial, stages);
  }

  /** Crop, zoom and subtitles never read an asset file. */
  lemma OnlyTemplatesReadAssets(cfg: RenderConfig, info: VideoInfo, srtPath: string,
                                brandAssetPresent: bool, watermarkAssetPresent: bool)
    ensures AssetsOf(PlannedStages(cfg, info, srtPath, brandAssetPresent, watermarkAssetPresent))
         == AssetsOf(TemplateStages(cfg, brandAssetPresent, watermarkAssetPresent))
  {
    var crop, zoom := CropStages(cfg, info), ZoomStages(cfg);
    var tmpl, subs := TemplateStages(cfg, brandAssetPresent, watermarkAssetPresent), SubtitleStages(cfg, srtPath);
    assert AssetsOf(crop) == [] by {
      if crop != [] { assert crop == [crop[0]]; AssetsOfSingle(crop[0]); }
    }
    assert AssetsOf(zoom) == [] by {
      if zoom != [] { assert zoom == [Zoom]; AssetsOfSingle(Zoom); }
    }
    assert AssetsOf(subs) == [] by {
      if subs != [] { assert subs == [subs[0]]; AssetsOfSingle(subs[0]); }
    }
    AssetsOfAppend(crop + zoom + tmpl, subs);
    AssetsOfAppend(crop + zoom, tmpl);
    AssetsOfAppend(crop, zoom);
    assert AssetsOf(crop + zoom) == [];
    assert AssetsOf(crop + zoom + tmpl) == AssetsOf(tmpl);
  }

  lemma AssetsOfSingle(s: Stage)
    ensures AssetsOf([s]) == (match AssetOf(s) case Some(p) => [p] case None => [])
  {
    assert [s][1..] == [];
  }

  lemma TemplateAssets(cfg: RenderConfig, brandAssetPresent: bool, watermarkAssetPresent: bool)
    ensures AssetsOf(TemplateStages(cfg, brandAssetPresent, watermarkAssetPresent)) ==
              (if cfg.templateId == Some("template_1") && brandAssetPresent then [BrandBarAsset]
               else if cfg.templateId == Some("template_2") && watermarkAssetPresent then [WatermarkAsset]
               else [])
  {
    var ts := TemplateStages(cfg, brandAssetPresent, watermarkAssetPresent);
    if cfg.templateId == Some("template_1") {
      var bar := if brandAssetPresent then BrandBarOverlay else BrandBarFallback;
      assert ts == [bar] + [BrandText];
      AssetsOfAppend([bar], [BrandText]);
      AssetsOfSingle(bar);
      AssetsOfSingle(BrandText);
    } else if cfg.templateId == Some("template_2") {
      var mark := if watermarkAssetPresent then WatermarkOverlay else WatermarkSkipped;
      assert ts == [Border] + [mark];
      AssetsOfAppend([Border], [mark]);
      AssetsOfSingle(Border);
      AssetsOfSingle(mark);
    }
  }

  /** For a landscape source the centred 9:16 window lies inside the frame. */
  lemma CenterCropGeometry(width: int, height: int)
    requires 0 <= height < width
    ensures CropWidth(height) == (9 * height) / 16
    ensures 0 <= CropWidth(height) <= height
    ensures CropOffset(width, height) == (width - CropWidth(height)) / 2
    ensures 0 <= CropOffset(width, height)
    ensures CropOffset(width, height) + CropWidth(height) <= width
    ensures 0 <= (width - CropOffset(width, height) - CropWidth(height)) - CropOffset(width, height) <= 1
  {
  }

  /**
   * When `center_crop` is requested on a landscape source, the first fragment
   * is the crop: it reads `[0:v]`, uses the computed 9:16 window and rebinds
   * the label to `[cropped]`.
   */
  lemma CropFragmentWhenRequested(cfg: RenderConfig, info: VideoInfo, srtPath: string,
                                  brandAssetPresent: bool, watermarkAssetPresent: bool)
    requires cfg.cropMode == Some("center_crop") && info.width > info.height
    ensures var c := Compile(cfg, info, srtPath, brandAssetPresent, watermarkAssetPresent);
            && |c.fragments| > 0
            && c.fragments[0]
               == Fragment(SourceVideo, CenterCrop(CropWidth(info.height), info.height,
                                                   CropOffset(info.width, info.height)), 0)
            && Output(c.fragments[0]) == "[cropped]"
  {
    var s := CenterCrop(CropWidth(info.height), info.height, CropOffset(info.width, info.height));
    var rest := ZoomStages(cfg) + TemplateStages(cfg, brandAssetPresent, watermarkAssetPresent)
                + SubtitleStages(cfg, srtPath);
    var stages := PlannedStages(cfg, info, srtPath, brandAssetPresent, watermarkAssetPresent);
    assert CropStages(cfg, info) == [s];
    assert stages == [s] + rest;
    RunAppend(Initial, [s], rest);
    RunSingle(Initial, s);
    var c1 := Step(Initial, s);
    assert c1.fragments == [Fragment(SourceVideo, s, 0)];
    RunKeepsPrefix(c1, rest);
    var f := Run(c1, rest).fragments;
    assert f[0] == f[..1][0];
  }

  /** Otherwise no fragment of the compiled chain is a crop. */
  lemma NoCropFragmentOtherwise(cfg: RenderConfig, info: VideoInfo, srtPath: string,
                                brandAssetPresent: bool, watermarkAssetPresent: bool)
    requires !(cfg.cropMode == Some("center_crop") && info.width > info.height)
    ensures var c := Compile(cfg, info, srtPath, brandAssetPresent, watermarkAssetPresent);
            forall i :: 0 <= i < |c.fragments| ==> !c.fragments[i].stage.CenterCrop?
  {
    var zoom := ZoomStages(cfg);
    var tmpl := TemplateStages(cfg, brandAssetPresent, watermarkAssetPresent);
    var subs := SubtitleStages(cfg, srtPath);
    var stages := PlannedStages(cfg, info, srtPath, brandAssetPresent, watermarkAssetPresent);
    assert stages == zoom + tmpl + subs;
    assert forall k :: 0 <= k < |zoom| ==> !zoom[k].CenterCrop?;
    assert forall k :: 0 <= k < |tmpl| ==> !tmpl[k].CenterCrop?;
    assert forall k :: 0 <= k < |subs| ==> !subs[k].CenterCrop?;
    assert forall k :: 0 <= k < |stages| ==> !stages[k].CenterCrop?;
    CompileInvariants(cfg, info, srtPath, brandAssetPresent, watermarkAssetPresent);
  }

  /** template_1 emits the bar (overlay on a fresh slot, or the 50px box with no input), then the brand text labelled `[templated]`. */
  lemma Template1Shape(c: Chain, cfg: RenderConfig, brandAssetPresent: bool, watermarkAssetPresent: bool)
    requires cfg.templateId == Some("template_1")
    ensures Run(c, TemplateStages(cfg, brandAssetPresent, watermarkAssetPresent)) ==
      if brandAssetPresent then
        Chain("[templated]", c.nextInput + 1, c.assets + [BrandBarAsset],
              c.fragments + [Fragment(c.current, BrandBarOverlay, c.nextInput), Fragment("[bar_applied]", BrandText, 0)])
      else
        Chain("[templated]", c.nextInput, c.assets,
              c.fragments + [Fragment(c.current, BrandBarFallback, 0), Fragment("[bar_applied]", BrandText, 0)])
  {
    var bar := if brandAssetPresent then BrandBarOverlay else BrandBarFallback;
    assert TemplateStages(cfg, brandAssetPresent, watermarkAssetPresent) == [bar, BrandText];
    RunPair(c, bar, BrandText);
    var c1 := Step(c, bar);
    assert c1.current == "[bar_applied]";
    assert Step(c1, BrandText).fragments == c1.fragments + [Fragment("[bar_applied]", BrandText, 0)];
  }

  /** template_2 emits the border, then a watermark overlay on a fresh slot or a `null` pass-through with no input, labelled `[templated]`. */
  lemma Template2Shape(c: Chain, cfg: RenderConfig, brandAssetPresent: bool, watermarkAssetPresent: bool)
    requires cfg.templateId == Some("template_2")
    ensures Run(c, TemplateStages(cfg, brandAssetPresent, watermarkAssetPresent)) ==
      if watermarkAssetPresent then
        Chain("[templated]", c.nextInput + 1, c.assets + [WatermarkAsset],
              c.fragments + [Fragment(c.current, Border, 0), Fragment("[bordered]", WatermarkOverlay, c.nextInput)])
      else
        Chain("[templated]", c.nextInput, c.assets,
              c.fragments + [Fragment(c.current, Border, 0), Fragment("[bordered]", WatermarkSkipped, 0)])
  {
    var mark := if watermarkAssetPresent then WatermarkOverlay else WatermarkSkipped;
    assert cfg.templateId != Some("template_1") by {
      assert "template_2"[9] != "template_1"[9];
    }
    assert TemplateStages(cfg, brandAssetPresent, watermarkAssetPresent) == [Border, mark];
    RunPair(c, Border, mark);
    var border := Fragment(c.current, Border, 0);
    var c1 := Step(c, Border);
    assert c1 == Chain("[bordered]", c.nextInput, c.assets, c.fragments + [border]);
    if watermarkAssetPresent {
      var f := Fragment("[bordered]", WatermarkOverlay, c.nextInput);
      assert Step(c1, WatermarkOverlay) ==
             Chain("[templated]", c.nextInput + 1, c.assets + [WatermarkAsset], c1.fragments + [f]);
      assert c1.fragments + [f] == c.fragments + [border, f];
    } else {
      var f := Fragment("[bordered]", WatermarkSkipped, 0);
      assert Step(c1, WatermarkSkipped) == Chain("[templated]", c.nextInput, c.assets, c1.fragments + [f]);
      assert c1.fragments + [f] == c.fragments + [border, f];
    }
  }

  /** A recognised style emits one subtitle fragment labelled `[subtitled]` and no input; any other value changes nothing. */
  lemma SubtitleShape(c: Chain, cfg: RenderConfig, srtPath: string)
    ensures cfg.subtitleStyle.Some? && cfg.subtitleStyle.value in StyleMap ==>
      Run(c, SubtitleStages(cfg, srtPath)) ==
        Chain("[subtitled]", c.nextInput, c.assets,
              c.fragments + [Fragment(c.current, Subtitles(srtPath, StyleMap[cfg.subtitleStyle.value]), 0)])
    ensures !(cfg.subtitleStyle.Some? && cfg.subtitleStyle.value in StyleMap) ==>
      Run(c, SubtitleStages(cfg, srtPath)) == c
  {
  }

  /** An unsupported crop mode (or a portrait/square source) compiles exactly as if no crop mode were given. */
  lemma UnsupportedCropIgnored(cfg: RenderConfig, info: VideoInfo, srtPath: string,
                               brandAssetPresent: bool, watermarkAssetPresent: bool)
    requires !(cfg.cropMode == Some("center_crop") && info.width > info.height)
    ensures Compile(cfg, info, srtPath, brandAssetPresent, watermarkAssetPresent)
         == Compile(cfg.(cropMode := None), info, srtPath, brandAssetPresent, watermarkAssetPresent)
  {
  }

  /** An unknown template id compiles exactly as if no template were given. */
  lemma UnsupportedTemplateIgnored(cfg: RenderConfig, info: VideoInfo, srtPath: string,
                                   brandAssetPresent: bool, watermarkAssetPresent: bool)
    requires cfg.templateId != Some("template_1") && cfg.templateId != Some("template_2")
    ensures Compile(cfg, info, srtPath, brandAssetPresent, watermarkAssetPresent)
         == Compile(cfg.(templateId := None), info, srtPath, brandAssetPresent, watermarkAssetPresent)
  {
  }

  /** An unknown subtitle style compiles exactly as if no style were given. */
  lemma UnsupportedSubtitleStyleIgnored(cfg: RenderConfig, info: VideoInfo, srtPath: string,
                                        brandAssetPresent: bool, watermarkAssetPresent: bool)
    requires cfg.subtitleStyle.Some? ==> cfg.subtitleStyle.value !in StyleMap
    ensures Compile(cfg, info, srtPath, brandAssetPresent, watermarkAssetPresent)
         == Compile(cfg.(subtitleStyle := None), info, srtPath, brandAssetPresent, watermarkAssetPresent)
  {
  }

  /** Whether any stage applies to this configuration and geometry. */
  predicate AnyStageApplies(cfg: RenderConfig, info: VideoInfo)
  {
    || (cfg.cropMode == Some("center_crop") && info.width > info.height)
    || cfg.zoomEffect
    || cfg.templateId == Some("template_1") || cfg.templateId == Some("template_2")
    || (cfg.subtitleStyle.Some? && cfg.subtitleStyle.value in StyleMap)
  }

  /** No fragment is emitted exactly when no stage applies; the state is then untouched. */
  lemma NoFragmentsIffNoStage(cfg: RenderConfig, info: VideoInfo, srtPath: string,
                              brandAssetPresent: bool, watermarkAssetPresent: bool)
    ensures var c := Compile(cfg, info, srtPath, brandAssetPresent, watermarkAssetPresent);
            (c.fragments == [] <==> !AnyStageApplies(cfg, info))
            && (c.fragments == [] ==> c == Initial)
  {
    var stages := PlannedStages(cfg, info, srtPath, brandAssetPresent, watermarkAssetPresent);
    var c := Run(Initial, stages);
    RunKeepsPrefix(Initial, stages);
    var crop, zoom := CropStages(cfg, info), ZoomStages(cfg);
    var tmpl, subs := TemplateStages(cfg, brandAssetPresent, watermarkAssetPresent), SubtitleStages(cfg, srtPath);
    assert |stages| == |crop| + |zoom| + |tmpl| + |subs|;
    if !AnyStageApplies(cfg, info) {
      assert stages == [];
    }
  }
}
