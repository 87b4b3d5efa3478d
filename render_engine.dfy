/**
 * build_ffmpeg_command: the compiler as the source writes it, a sequence of
 * optional stages that reassign the current video label, bump the next
 * input slot and append to the input and filter lists, followed by the
 * assembly of the argument list. Its postcondition ties the result to the
 * specification in RenderPlan; the lemmas below state what that command is.
 */
module RenderEngine {
  import opened Wrappers
  import opened Strings
  import opened FilterPath
  import opened CommandLine
  import opened RenderPlan
  import opened PlanProperties

  /** The argument list the specification assigns to a request. */
  function CompiledCommand(cfg: RenderConfig, info: VideoInfo, inputVideoPath: string, inputSrtPath: string,
                           brandAssetPresent: bool, watermarkAssetPresent: bool): seq<string>
  {
    Serialize(Finalize(inputVideoPath, Compile(cfg, info, inputSrtPath, brandAssetPresent, watermarkAssetPresent),
                       OutputPath(cfg)))
  }

  /** The compiler's local variables hold exactly what the chain c describes. */
  ghost predicate Mirrors(c: Chain, inputVideoPath: string, currentVStream: string, nextInputIdx: nat,
                          inputsArgs: seq<string>, filterComplexParts: seq<string>)
  {
    && currentVStream == c.current
    && nextInputIdx == c.nextInput
    && inputsArgs == InputArgs([inputVideoPath] + c.assets)
    && filterComplexParts == Texts(c.fragments)
  }

  /** One more fragment adds its text at the end. */
  lemma TextsSnoc(fragments: seq<Fragment>, f: Fragment)
    ensures Texts(fragments + [f]) == Texts(fragments) + [FragmentText(f)]
  {
    var all := fragments + [f];
    var longer, appended := Texts(all), Texts(fragments) + [FragmentText(f)];
    assert |longer| == |appended|;
    forall i | 0 <= i < |longer|
      ensures longer[i] == appended[i]
    {
      assert longer[i] == FragmentText(all[i]);
      if i < |fragments| {
        assert all[i] == fragments[i];
        assert appended[i] == Texts(fragments)[i];
      } else {
        assert all[i] == f;
      }
    }
  }

  /** Appending the text of the fragment a step emits keeps the mirror. */
  lemma StepMirrors(c: Chain, s: Stage, inputVideoPath: string, inputsArgs: seq<string>,
                    filterComplexParts: seq<string>)
    requires Mirrors(c, inputVideoPath, c.current, c.nextInput, inputsArgs, filterComplexParts)
    ensures var f := Fragment(c.current, s, if AssetOf(s).Some? then c.nextInput else 0);
            Mirrors(Step(c, s), inputVideoPath, OutLabel(s),
                    if AssetOf(s).Some? then c.nextInput + 1 else c.nextInput,
                    if AssetOf(s).Some? then inputsArgs + ["-i", AssetOf(s).value] else inputsArgs,
                    filterComplexParts + [FragmentText(f)])
  {
    var f := Fragment(c.current, s, if AssetOf(s).Some? then c.nextInput else 0);
    var c' := Step(c, s);
    assert c'.fragments == c.fragments + [f];
    TextsSnoc(c.fragments, f);
    if AssetOf(s).Some? {
      assert [inputVideoPath] + c'.assets == ([inputVideoPath] + c.assets) + [AssetOf(s).value];
      InputArgsSnoc([inputVideoPath] + c.assets, AssetOf(s).value);
    }
  }

  /**
   * The local state of build_ffmpeg_command: the current video label, the
   * next free input slot and the two lists the stages append to. The ghost
   * chain is the specification state these fields stand for.
   */
  class CommandBuilder {
    const inputVideoPath: string
    var currentVStream: string
    var nextInputIdx: nat
    var inputsArgs: seq<string>
    var filterComplexParts: seq<string>
    ghost var chain: Chain

    ghost predicate Valid()
      reads this
    {
      Mirrors(chain, inputVideoPath, currentVStream, nextInputIdx, inputsArgs, filterComplexParts)
    }

    /** Nothing applied yet: input 0 is the source video and its video stream is current. */
    constructor (inputVideoPath: string)
      ensures Valid() && chain == Initial && this.inputVideoPath == inputVideoPath
    {
      this.inputVideoPath := inputVideoPath;
      currentVStream := "[0:v]";
      nextInputIdx := 1;
      inputsArgs := ["-i", inputVideoPath];
      filterComplexParts := [];
      chain := Initial;
      assert InputArgs([inputVideoPath]) == ["-i", inputVideoPath];
    }

    /** 1. Centre crop to 9:16, only for `center_crop` on a landscape source. */
    method ApplyCenterCrop(config: RenderConfig, videoInfo: VideoInfo)
      requires Valid()
      modifies this
      ensures Valid() && chain == Run(old(chain), CropStages(config, videoInfo))
    {
      var inputWidth := videoInfo.width;
      var inputHeight := videoInfo.height;
      if config.cropMode == Some("center_crop") && inputWidth > inputHeight {
        var targetWidth := CropWidth(inputHeight);
        var offsetX := TruncDiv(inputWidth - targetWidth, 2);
        assert offsetX == CropOffset(inputWidth, inputHeight);
        var cropFilter := currentVStream
                          + ("crop=w=" + IntToString(targetWidth) + ":h=" + IntToString(inputHeight)
                             + ":x=" + IntToString(offsetX) + ":y=0")
                          + "[cropped]";
        StepMirrors(chain, CenterCrop(targetWidth, inputHeight, offsetX), inputVideoPath, inputsArgs, filterComplexParts);
        filterComplexParts := filterComplexParts + [cropFilter];
        currentVStream := "[cropped]";
        chain := Step(chain, CenterCrop(targetWidth, inputHeight, offsetX));
        RunSingle(old(chain), CenterCrop(targetWidth, inputHeight, offsetX));
      }
      // any other non-empty crop_mode is only reported
    }

    /** 2. Slow zoom, when zoom_effect is truthy. */
    method ApplyZoom(config: RenderConfig)
      requires Valid()
      modifies this
      ensures Valid() && chain == Run(old(chain), ZoomStages(config))
    {
      if config.zoomEffect {
        var zoomFilter := currentVStream
                          + "scale=w='iw*pow(1+0.05,t)':h='ih*pow(1+0.05,t)':eval=frame,crop=iw:ih"
                          + "[zoomed]";
        StepMirrors(chain, Zoom, inputVideoPath, inputsArgs, filterComplexParts);
        filterComplexParts := filterComplexParts + [zoomFilter];
        currentVStream := "[zoomed]";
        chain := Step(chain, Zoom);
        RunSingle(old(chain), Zoom);
      }
    }

    /** 3. Template: template_1 or template_2; any other id is only reported. */
    method ApplyTemplate(config: RenderConfig, brandAssetPresent: bool, watermarkAssetPresent: bool)
      requires Valid()
      modifies this
      ensures Valid() && chain == Run(old(chain), TemplateStages(config, brandAssetPresent, watermarkAssetPresent))
    {
      var templateId := config.templateId;
      if templateId.Some? && templateId.value != "" {
        if templateId.value == "template_1" {
          ApplyBrandTemplate(brandAssetPresent);
        } else if templateId.value == "template_2" {
          ApplyBorderTemplate(watermarkAssetPresent);
        }
      }
    }

    /** template_1: the brand bar (overlay on the next slot, or a 50px box), then the brand text. */
    method ApplyBrandTemplate(brandAssetPresent: bool)
      requires Valid()
      modifies this
      ensures Valid()
      ensures chain == Run(old(chain), [if brandAssetPresent then BrandBarOverlay else BrandBarFallback, BrandText])
    {
      ApplyBrandBar(brandAssetPresent);
      ApplyBrandText();
      RunPair(old(chain), if brandAssetPresent then BrandBarOverlay else BrandBarFallback, BrandText);
    }

    method ApplyBrandBar(brandAssetPresent: bool)
      requires Valid()
      modifies this
      ensures Valid()
      ensures chain == Step(old(chain), if brandAssetPresent then BrandBarOverlay else BrandBarFallback)
    {
      var brandAsset := BrandBarAsset;
      if brandAssetPresent {
        StepMirrors(chain, BrandBarOverlay, inputVideoPath, inputsArgs, filterComplexParts);
        inputsArgs := inputsArgs + ["-i", brandAsset];
        var brandStream := "[" + NatToString(nextInputIdx) + ":v]";
        nextInputIdx := nextInputIdx + 1;
        filterComplexParts := filterComplexParts
                              + [currentVStream + brandStream + "overlay=x=0:y=ih-overlay_h" + "[bar_applied]"];
        currentVStream := "[bar_applied]";
        chain := Step(chain, BrandBarOverlay);
      } else {
        StepMirrors(chain, BrandBarFallback, inputVideoPath, inputsArgs, filterComplexParts);
        filterComplexParts := filterComplexParts
          + [currentVStream + "drawbox=x=0:y=ih-50:w=iw:h=50:color=blue@0.7:t=fill" + "[bar_applied]"];
        currentVStream := "[bar_applied]";
        chain := Step(chain, BrandBarFallback);
      }
    }

    method ApplyBrandText()
      requires Valid()
      modifies this
      ensures Valid() && chain == Step(old(chain), BrandText)
    {
      StepMirrors(chain, BrandText, inputVideoPath, inputsArgs, filterComplexParts);
      filterComplexParts := filterComplexParts
        + [currentVStream
           + "drawtext=text='Your Brand Here':x=(w-text_w)/2:y=20:fontsize=24:fontcolor=white:box=1:boxcolor=black@0.5:boxborderw=5"
           + "[templated]"];
      currentVStream := "[templated]";
      chain := Step(chain, BrandText);
    }

    /** template_2: the 5px border, then the watermark on the next slot or a `null` pass-through. */
    method ApplyBorderTemplate(watermarkAssetPresent: bool)
      requires Valid()
      modifies this
      ensures Valid()
      ensures chain == Run(old(chain), [Border, if watermarkAssetPresent then WatermarkOverlay else WatermarkSkipped])
    {
      StepMirrors(chain, Border, inputVideoPath, inputsArgs, filterComplexParts);
      filterComplexParts := filterComplexParts
                            + [currentVStream + "drawbox=x=10:y=10:w=iw-20:h=ih-20:color=white:t=5" + "[bordered]"];
      currentVStream := "[bordered]";
      chain := Step(chain, Border);

      var watermarkAsset := WatermarkAsset;
      var mark := if watermarkAssetPresent then WatermarkOverlay else WatermarkSkipped;
      if watermarkAssetPresent {
        StepMirrors(chain, WatermarkOverlay, inputVideoPath, inputsArgs, filterComplexParts);
        inputsArgs := inputsArgs + ["-i", watermarkAsset];
        var watermarkStream := "[" + NatToString(nextInputIdx) + ":v]";
        nextInputIdx := nextInputIdx + 1;
        filterComplexParts := filterComplexParts
          + [currentVStream + watermarkStream + "overlay=x=iw-overlay_w-10:y=ih-overlay_h-10" + "[templated]"];
        currentVStream := "[templated]";
      } else {
        StepMirrors(chain, WatermarkSkipped, inputVideoPath, inputsArgs, filterComplexParts);
        filterComplexParts := filterComplexParts + [currentVStream + "null" + "[templated]"];
        currentVStream := "[templated]";
      }
      chain := Step(chain, mark);
      RunPair(old(chain), Border, mark);
    }

    /** 4. Subtitle burn-in with one of the two recognised styles. */
    method ApplySubtitles(config: RenderConfig, inputSrtPath: string)
      requires Valid()
      modifies this
      ensures Valid() && chain == Run(old(chain), SubtitleStages(config, inputSrtPath))
    {
      var subtitleStyle := config.subtitleStyle;
      if subtitleStyle.Some? && subtitleStyle.value != "" {
        var lookedUp := StyleLookup(subtitleStyle.value);
        if lookedUp.Some? && lookedUp.value != "" {
          var forceStyle := lookedUp.value;
          var escapedPath := EscapeColons(ReplaceBackslashPairs(inputSrtPath));
          var subtitleFilter := currentVStream
                                + ("subtitles=filename='" + escapedPath + "':force_style='" + forceStyle + "'")
                                + "[subtitled]";
          StepMirrors(chain, Subtitles(inputSrtPath, forceStyle), inputVideoPath, inputsArgs, filterComplexParts);
          filterComplexParts := filterComplexParts + [subtitleFilter];
          currentVStream := "[subtitled]";
          chain := Step(chain, Subtitles(inputSrtPath, forceStyle));
          RunSingle(old(chain), Subtitles(inputSrtPath, forceStyle));
        }
        // an unknown style is only reported
      }
    }

    /** 5. Finalize: inputs, optional filter graph, maps, encoder flags, output path. */
    method Assemble(config: RenderConfig) returns (fullCommand: seq<string>)
      requires Valid()
      ensures fullCommand == Serialize(Finalize(inputVideoPath, chain, OutputPath(config)))
    {
      var outputFormat := match config.outputFormat case None => "mp4" case Some(f) => f;
      var outputPath := OutputsDir + "/final_render." + outputFormat;
      var mapsArgs: seq<string> := [];
      var outputOptionsArgs: seq<string> := [];
      assert outputPath == OutputPath(config);
      ghost var plan := Finalize(inputVideoPath, chain, outputPath);

      var finalCmd, finalVStream, finalAStream := SelectStreams(outputPath);
      mapsArgs := mapsArgs + ["-map", finalVStream];
      mapsArgs := mapsArgs + ["-map", finalAStream];
      outputOptionsArgs := outputOptionsArgs + [
        "-c:v", "libx264",
        "-pix_fmt", "yuv420p",
        "-preset", "medium",
        "-crf", "23",
        "-c:a", "aac",
        "-b:a", "128k",
        "-y",
        outputPath
      ];
      assert mapsArgs == ["-map", plan.videoMap, "-map", plan.audioMap];
      assert outputOptionsArgs == EncoderFlags + [plan.outputPath];
      fullCommand := finalCmd + mapsArgs + outputOptionsArgs;
      AssembledPlan(finalCmd, mapsArgs, outputOptionsArgs, plan);
    }

    /**
     * The filter graph, when there are fragments, follows the inputs, and the
     * streams to map are the last label and optional audio; otherwise the
     * source's own video and audio streams are mapped.
     */
    method SelectStreams(ghost outputPath: string) returns (finalCmd: seq<string>, finalVStream: string, finalAStream: string)
      requires Valid()
      ensures var plan := Finalize(inputVideoPath, chain, outputPath);
              && finalCmd == ["ffmpeg"] + InputArgs(plan.inputs) + FilterArgs(plan.filterGraph)
              && finalVStream == plan.videoMap && finalAStream == plan.audioMap
    {
      ghost var plan := Finalize(inputVideoPath, chain, outputPath);
      finalCmd := ["ffmpeg"] + inputsArgs;
      if |filterComplexParts| > 0 {
        var filterComplexStr := Join(filterComplexParts, ";");
        finalCmd := finalCmd + ["-filter_complex", filterComplexStr];
        finalVStream := currentVStream;
        finalAStream := "0:a?";
      } else {
        finalVStream := "[0:v]";
        finalAStream := "[0:a]";
        assert finalCmd == finalCmd + FilterArgs(plan.filterGraph);
      }
    }
  }

  /** The three pieces the source concatenates are the serialization of the plan. */
  lemma AssembledPlan(finalCmd: seq<string>, mapsArgs: seq<string>, outputOptionsArgs: seq<string>, p: CommandPlan)
    requires finalCmd == ["ffmpeg"] + InputArgs(p.inputs) + FilterArgs(p.filterGraph)
    requires mapsArgs == ["-map", p.videoMap, "-map", p.audioMap]
    requires outputOptionsArgs == EncoderFlags + [p.outputPath]
    ensures finalCmd + mapsArgs + outputOptionsArgs == Serialize(p)
  {
    RegroupArgs(finalCmd, mapsArgs, EncoderFlags, [p.outputPath]);
    assert MapArgs(p) == mapsArgs + EncoderFlags + [p.outputPath];
  }

  /**
   * Builds the ffmpeg argument list for a render request: the stages in
   * their fixed order, then the assembly. The two asset existence checks of
   * the source arrive as brandAssetPresent and watermarkAssetPresent.
   */
  method BuildFfmpegCommand(config: RenderConfig, videoInfo: VideoInfo, inputVideoPath: string,
                            inputSrtPath: string, brandAssetPresent: bool, watermarkAssetPresent: bool)
    returns (fullCommand: seq<string>)
    ensures fullCommand
         == CompiledCommand(config, videoInfo, inputVideoPath, inputSrtPath, brandAssetPresent, watermarkAssetPresent)
  {
    var builder := new CommandBuilder(inputVideoPath);
    builder.ApplyCenterCrop(config, videoInfo);
    builder.ApplyZoom(config);
    builder.ApplyTemplate(config, brandAssetPresent, watermarkAssetPresent);
    builder.ApplySubtitles(config, inputSrtPath);
    fullCommand := builder.Assemble(config);

    var crop, zoom := CropStages(config, videoInfo), ZoomStages(config);
    var tmpl, subs := TemplateStages(config, brandAssetPresent, watermarkAssetPresent), SubtitleStages(config, inputSrtPath);
    assert PlannedStages(config, videoInfo, inputSrtPath, brandAssetPresent, watermarkAssetPresent)
        == crop + zoom + tmpl + subs;
    RunAppend(Initial, crop + zoom + tmpl, subs);
    RunAppend(Initial, crop + zoom, tmpl);
    RunAppend(Initial, crop, zoom);
  }

  // ---------------------------------------------------------------------
  // The assembled argument list
  // ---------------------------------------------------------------------

  /**
   * No stage applies: the source video is the only input, there is no
   * filter graph, and its own video and audio streams are mapped.
   */
  lemma DirectMapWithoutStages(cfg: RenderConfig, info: VideoInfo, inputVideoPath: string, inputSrtPath: string,
                               brandAssetPresent: bool, watermarkAssetPresent: bool)
    requires !AnyStageApplies(cfg, info)
    ensures CompiledCommand(cfg, info, inputVideoPath, inputSrtPath, brandAssetPresent, watermarkAssetPresent)
         == ["ffmpeg", "-i", inputVideoPath, "-map", "[0:v]", "-map", "[0:a]"] + EncoderFlags + [OutputPath(cfg)]
  {
    NoFragmentsIffNoStage(cfg, info, inputSrtPath, brandAssetPresent, watermarkAssetPresent);
    assert InputArgs([inputVideoPath]) == ["-i", inputVideoPath];
  }

  /**
   * Some stage applies: right after the inputs comes one -filter_complex
   * with the fragments joined by `;`, the video map is the label the last
   * fragment wrote, and the audio map is the optional `0:a?`.
   */
  lemma FilterGraphWithStages(cfg: RenderConfig, info: VideoInfo, inputVideoPath: string, inputSrtPath: string,
                              brandAssetPresent: bool, watermarkAssetPresent: bool)
    requires AnyStageApplies(cfg, info)
    ensures var c := Compile(cfg, info, inputSrtPath, brandAssetPresent, watermarkAssetPresent);
            var cmd := CompiledCommand(cfg, info, inputVideoPath, inputSrtPath, brandAssetPresent, watermarkAssetPresent);
            var n := 3 + 2 * |c.assets|;
            && c.fragments != []
            && |cmd| == n + 7 + |EncoderFlags|
            && cmd[n] == "-filter_complex" && cmd[n + 1] == Join(Texts(c.fragments), ";")
            && cmd[n + 2] == "-map" && cmd[n + 3] == Output(c.fragments[|c.fragments| - 1])
            && cmd[n + 4] == "-map" && cmd[n + 5] == "0:a?"
            && cmd[|cmd| - 1] == OutputPath(cfg)
  {
    var c := Compile(cfg, info, inputSrtPath, brandAssetPresent, watermarkAssetPresent);
    NoFragmentsIffNoStage(cfg, info, inputSrtPath, brandAssetPresent, watermarkAssetPresent);
    CompileInvariants(cfg, info, inputSrtPath, brandAssetPresent, watermarkAssetPresent);
    assert CompiledCommand(cfg, info, inputVideoPath, inputSrtPath, brandAssetPresent, watermarkAssetPresent)
        == Serialize(Finalize(inputVideoPath, c, OutputPath(cfg)));
    FilteredLayout(inputVideoPath, c, OutputPath(cfg));
  }

  /** Where the filter graph and the maps sit in the argument list of a plan with fragments. */
  lemma FilteredLayout(inputVideoPath: string, c: Chain, outputPath: string)
    requires c.fragments != [] && Threaded(c, SourceVideo)
    ensures var cmd := Serialize(Finalize(inputVideoPath, c, outputPath));
            var n := 3 + 2 * |c.assets|;
            && |cmd| == n + 7 + |EncoderFlags|
            && cmd[n] == "-filter_complex" && cmd[n + 1] == Join(Texts(c.fragments), ";")
            && cmd[n + 2] == "-map" && cmd[n + 3] == Output(c.fragments[|c.fragments| - 1])
            && cmd[n + 4] == "-map" && cmd[n + 5] == "0:a?"
            && cmd[|cmd| - 1] == outputPath
  {
    SerializeLayout(Finalize(inputVideoPath, c, outputPath));
  }

  /**
   * The slot label an asset fragment reads, `[k:v]`, refers to the k-th
   * `-i` argument of the command, and that argument is the asset's file.
   */
  lemma AssetSlotIsItsInput(cfg: RenderConfig, info: VideoInfo, inputVideoPath: string, inputSrtPath: string,
                            brandAssetPresent: bool, watermarkAssetPresent: bool, i: nat)
    requires var c := Compile(cfg, info, inputSrtPath, brandAssetPresent, watermarkAssetPresent);
             i < |c.fragments| && AssetOf(c.fragments[i].stage).Some?
    ensures var c := Compile(cfg, info, inputSrtPath, brandAssetPresent, watermarkAssetPresent);
            var cmd := CompiledCommand(cfg, info, inputVideoPath, inputSrtPath, brandAssetPresent, watermarkAssetPresent);
            var k := c.fragments[i].slot;
            && 1 <= k && 2 + 2 * k < |cmd|
            && cmd[1 + 2 * k] == "-i" && cmd[2 + 2 * k] == AssetOf(c.fragments[i].stage).value
  {
    var c := Compile(cfg, info, inputSrtPath, brandAssetPresent, watermarkAssetPresent);
    CompiledSlotHoldsAsset(cfg, info, inputSrtPath, brandAssetPresent, watermarkAssetPresent, i);
    assert CompiledCommand(cfg, info, inputVideoPath, inputSrtPath, brandAssetPresent, watermarkAssetPresent)
        == Serialize(Finalize(inputVideoPath, c, OutputPath(cfg)));
    SlotLayout(inputVideoPath, c, OutputPath(cfg), c.fragments[i].slot);
  }

  /** Slot k of a finalized plan is loaded by the k-th `-i` pair, which names the k-th asset. */
  lemma SlotLayout(inputVideoPath: string, c: Chain, outputPath: string, k: nat)
    requires 1 <= k <= |c.assets|
    ensures var cmd := Serialize(Finalize(inputVideoPath, c, outputPath));
            && 2 + 2 * k < |cmd|
            && cmd[1 + 2 * k] == "-i" && cmd[2 + 2 * k] == c.assets[k - 1]
  {
    var p := Finalize(inputVideoPath, c, outputPath);
    assert p.inputs == [inputVideoPath] + c.assets;
    SerializedInput(p, k);
  }

  /**
   * The command reads back as the plan it was written from: the source
   * video is input 0, at most one asset follows it, the filter graph is
   * present exactly when some stage applies, and the audio map and output
   * path are the ones chosen for that case.
   */
  lemma CompiledCommandParses(cfg: RenderConfig, info: VideoInfo, inputVideoPath: string, inputSrtPath: string,
                              brandAssetPresent: bool, watermarkAssetPresent: bool)
    ensures var p := ParseCommand(CompiledCommand(cfg, info, inputVideoPath, inputSrtPath,
                                                  brandAssetPresent, watermarkAssetPresent));
            && p.Some?
            && |p.value.inputs| <= 2 && p.value.inputs[0] == inputVideoPath
            && (p.value.filterGraph.Some? <==> AnyStageApplies(cfg, info))
            && p.value.audioMap == (if AnyStageApplies(cfg, info) then "0:a?" else "[0:a]")
            && p.value.outputPath == OutputPath(cfg)
  {
    var c := Compile(cfg, info, inputSrtPath, brandAssetPresent, watermarkAssetPresent);
    ParseSerialize(Finalize(inputVideoPath, c, OutputPath(cfg)));
    CompileAssets(cfg, info, inputSrtPath, brandAssetPresent, watermarkAssetPresent);
    NoFragmentsIffNoStage(cfg, info, inputSrtPath, brandAssetPresent, watermarkAssetPresent);
  }
}
