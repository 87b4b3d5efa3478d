# Render-plan compiler of the video render engine

The render engine turns a render configuration (crop mode, zoom flag,
template id, subtitle style, output format), the probed width and height of
the source video, the local video and subtitle paths, and the presence of two
overlay assets into one ffmpeg argument list. `build_ffmpeg_command` does this
with a fixed sequence of optional stages:

1. centre crop to 9:16, only for `center_crop` on a landscape source;
2. slow zoom, when `zoom_effect` is truthy;
3. a template: `template_1` (brand bar overlay or a 50px fallback box, then the
   brand text) or `template_2` (a 5px border, then a watermark overlay or a
   `null` pass-through);
4. subtitle burn-in with one of two named styles;
5. assembly: the inputs, the optional `-filter_complex` graph, the video and
   audio maps, the fixed encoder flags and `outputs/final_render.<format>`.

Each stage that applies reads the current video label, may allocate the next
input slot for an asset file, appends one filter fragment and rebinds the
current label.

The project has two layers.

- A specification. It is a left fold (`RenderPlan.Run`) of `Step` over the
  list of stages the configuration selects (`RenderPlan.PlannedStages`). The
  fold threads a `Chain` record: the current label, the next free slot, the
  assets and the fragments. `RenderPlan.Finalize` turns the end state into a
  `CommandLine.CommandPlan`, and `CommandLine.Serialize` writes the plan out
  as the argument list. `CommandLine.ParseCommand` reads it back.
- The compiler as the source writes it. `RenderEngine.CommandBuilder` is a
  class whose fields are the function's local variables: `currentVStream`,
  `nextInputIdx`, `inputsArgs` and `filterComplexParts`. It has one method
  per stage, and each method updates those fields in place. A ghost `chain`
  field records which specification state the fields stand for.
  `RenderEngine.BuildFfmpegCommand` runs the stages in the source's order and
  is proved to return exactly `CompiledCommand`, the serialized plan of the
  specification.

Modules: `Wrappers` (Option), `Strings` (decimal rendering, join),
`FilterPath` (subtitle path escaping), `CommandLine` (the argument-list
layout and its parser), `RenderPlan` (the specification), `PlanProperties`
(what the specification guarantees), `RenderEngine` (the imperative compiler
and end-to-end lemmas about the produced command).

Behaviour of the code that the model reproduces as written:

- The crop width is `int(height * 9/16)`, which truncates toward zero and
  does not round to nearest.
- On the path with no filter graph the audio map is the bracketed `[0:a]`,
  which is not marked optional; only the filter path maps `0:a?`.
- The compiler has no validation step. It rejects no geometry: the crop
  runs whenever `width > height`, whatever the signs, and the numbers are
  printed as computed.

## Model

| member | source | states |
|---|---|---|
| RenderEngine.BuildFfmpegCommand | render_engine.py:122-243 | the returned argument list is exactly the serialized plan of the specification, for every configuration, geometry, path pair and asset availability |
| RenderEngine.CommandBuilder.constructor | render_engine.py:130-139 | starts with the source video as the only input, `[0:v]` as the current label, slot 1 free and no fragments (the specification's initial state) |
| RenderEngine.CommandBuilder.ApplyCenterCrop | render_engine.py:142-151 | the fields afterwards describe the specification state after the crop stage; the stage runs only for `center_crop` on a landscape source and appends `crop=w=int(9h/16):h=h:x=int((w-cw)/2):y=0` labelled `[cropped]` |
| RenderEngine.CommandBuilder.ApplyZoom | render_engine.py:154-161 | the fields afterwards describe the state after the zoom stage, which runs exactly when zoom_effect is truthy |
| RenderEngine.CommandBuilder.ApplyTemplate | render_engine.py:164-199 | template_1 and template_2 run their two stages; any other id, or none, leaves every field unchanged |
| RenderEngine.CommandBuilder.ApplyBrandTemplate | render_engine.py:167-181 | template_1 is the bar stage followed by the brand-text stage |
| RenderEngine.CommandBuilder.ApplyBrandBar | render_engine.py:168-178 | with the brand asset present: appends `-i assets/brand_bar.png`, reads it as `[k:v]` with k the next free slot, and bumps the slot; otherwise draws the fallback box and allocates nothing; both rebind the label to `[bar_applied]` |
| RenderEngine.CommandBuilder.ApplyBrandText | render_engine.py:180-181 | appends the brand drawtext fragment on the current label and rebinds it to `[templated]` |
| RenderEngine.CommandBuilder.ApplyBorderTemplate | render_engine.py:183-197 | border first (`[bordered]`), then the watermark overlay on the next slot with `-i assets/watermark_logo.png`, or the `null` pass-through with no input; both end in `[templated]` |
| RenderEngine.CommandBuilder.ApplySubtitles | render_engine.py:201-214 | a recognised style appends the subtitles fragment with the escaped path and the style's force_style, labelled `[subtitled]`; an empty or unknown style changes nothing |
| RenderEngine.CommandBuilder.SelectStreams | render_engine.py:216-225 | the program name and inputs, followed by `-filter_complex` and the `;`-joined fragments exactly when there are fragments; the streams to map are the last label and `0:a?` in that case, `[0:v]` and `[0:a]` otherwise |
| RenderEngine.CommandBuilder.Assemble | render_engine.py:216-241 | the argument list is the serialization of the finalized plan for the current state and `outputs/final_render.<format or mp4>` |
| RenderEngine.CompiledCommand | render_engine.py:122-243 | the argument list the specification assigns to a request: the serialized plan finalized from the compiled chain, the source video path and `outputs/final_render.<format>` |
| RenderPlan.CropStages | render_engine.py:142-151 | reproduces the crop decision `crop_mode == 'center_crop' and width > height`: then one crop stage with width `int(h*9/16)`, height h and offset `int((w-cw)/2)`; otherwise no stage |
| RenderPlan.ZoomStages | render_engine.py:154-161 | one zoom stage exactly when `zoom_effect` is truthy |
| RenderPlan.TemplateStages | render_engine.py:164-199 | template_1: the bar overlay when the brand asset exists, else the fallback box, then the brand text; template_2: the border, then the watermark overlay when its asset exists, else the `null` pass-through; any other id, or none, gives no stage |
| RenderPlan.SubtitleStages | render_engine.py:201-214 | one subtitles stage with the subtitle path and the style's descriptor exactly when the style is one of the two names; an empty or unknown style gives no stage |
| RenderPlan.PlannedStages | render_engine.py:142-214 | the selected stages in the source's fixed order: crop, zoom, template, subtitles |
| RenderPlan.Step | render_engine.py:147-212 | reproduces what each stage does to the locals: append a fragment reading `current_v_stream` (and slot `next_input_idx` for an overlay); for an overlay, add its asset and bump the slot; rebind `current_v_stream` to the stage's label |
| RenderPlan.Run | render_engine.py:142-214 | applies the stages one after another, each starting from the state the previous one left |
| RenderPlan.Compile | render_engine.py:130-214 | runs the planned stages from the state set up at lines 130-139: current label `[0:v]`, slot 1, no assets, no fragments |
| RenderPlan.FragmentText | render_engine.py:147-210 | reproduces the fragment f-strings: the input label, the slot label `[k:v]` for an overlay only, the filter body, the output label |
| PlanProperties.AnyStageApplies | render_engine.py:142-209 | the disjunction of the four stage conditions: crop on a landscape source, truthy zoom, one of the two template ids, one of the two style names |
| Strings.IntToString | render_engine.py:147 | reproduces Python's `str()` of the crop numbers: a non-empty text that starts with a minus sign exactly for a negative number, and starts with `0` only for 0 itself |
| Strings.NatToString | render_engine.py:171 | reproduces `str(next_input_idx)` inside `[...:v]`: a non-empty run of decimal digits with no leading zero except for 0 |
| CommandLine.EncoderFlagsAreNotDelimiters | render_engine.py:230-237 | the constant `EncoderFlags` is the source's flag list `-c:v libx264 -pix_fmt yuv420p -preset medium -crf 23 -c:a aac -b:a 128k -y`; none of these flags is `-i`, `-map` or `-filter_complex` |
| RenderEngine.DirectMapWithoutStages | render_engine.py:216-241 | when no stage applies the command is exactly `ffmpeg -i <video> -map [0:v] -map [0:a]`, the encoder flags and the output path |
| RenderEngine.FilterGraphWithStages | render_engine.py:216-241 | when some stage applies, `-filter_complex` with the `;`-joined fragments directly follows the inputs, the video map is the label the last fragment wrote and the audio map is `0:a?` |
| RenderEngine.AssetSlotIsItsInput | render_engine.py:169-173 | the slot `[k:v]` an overlay fragment reads is the k-th `-i` argument of the command, and that argument is the overlay's asset file |
| RenderEngine.CompiledCommandParses | render_engine.py:216-241 | the command parses back; the source video is input 0 and at most one asset follows; a filter graph is present exactly when some stage applies; the audio map and output path fit that case |
| CommandLine.SerializeLayout | render_engine.py:216-241 | fixed argument order: program name, one `-i` pair per input in order, optional filter graph, `-map` video, `-map` audio, the encoder flags, then the output path last |
| CommandLine.ParseSerialize | render_engine.py:216-241 | reading back a serialized plan yields that plan |
| CommandLine.SerializeParse | render_engine.py:216-241 | any argument list that parses is exactly the serialization of what it parses to |
| CommandLine.InputArgsSnoc | render_engine.py:170 | extending the inputs by one file appends one `-i` pair |
| RenderEngine.StepMirrors | render_engine.py:170-174 | appending a stage's fragment text, its `-i` pair and the slot bump keeps the compiler's fields matched to the specification state |
| PlanProperties.CompileInvariants | render_engine.py:137-212 | one fragment per applied stage in the fixed order crop, zoom, template, subtitles; the first fragment reads `[0:v]`, each later one reads its predecessor's output, and the current label is the last output; slots are handed out in order |
| PlanProperties.RunThreaded | render_engine.py:137-212 | every run of stages keeps the label threading: each fragment reads the label its predecessor wrote |
| PlanProperties.RunSlotsInOrder | render_engine.py:170-191 | every run keeps slot allocation in order: the n-th asset fragment reads slot n, slot n holds its file, the next free slot is one past the assets |
| PlanProperties.SlotsNeverReused | render_engine.py:171-172 | two different overlay fragments read different slots and different slot labels |
| PlanProperties.CompileAssets | render_engine.py:168-191 | the only asset ever added is the brand bar (template_1, present) or the watermark (template_2, present); at most one extra input, and the next free slot is one past it |
| PlanProperties.OnlyTemplatesReadAssets | render_engine.py:142-214 | crop, zoom and subtitles never add an input |
| PlanProperties.RunAppend | render_engine.py:142-214 | running stage lists one after another is running their concatenation |
| PlanProperties.RunKeepsPrefix | render_engine.py:148 | running stages only appends fragments; earlier fragments are never changed |
| PlanProperties.RunAllocatesAssets | render_engine.py:170 | a run allocates exactly the assets of its stages, in order |
| PlanProperties.CenterCropGeometry | render_engine.py:144-146 | on a landscape source the crop width is 9h/16 rounded down and lies within the height; the offset is non-negative; the window fits inside the frame; the left and right margins differ by at most one pixel |
| PlanProperties.CropFragmentWhenRequested | render_engine.py:142-149 | for `center_crop` on a landscape source, the first fragment is the crop of `[0:v]` with the computed window, labelled `[cropped]` |
| PlanProperties.NoCropFragmentOtherwise | render_engine.py:142-151 | in every other case no fragment is a crop |
| PlanProperties.Template1Shape | render_engine.py:167-181 | template_1 adds exactly the bar fragment (overlay on a fresh slot with the brand asset, or the fallback box with no input) and the brand text, ending in `[templated]` |
| PlanProperties.Template2Shape | render_engine.py:183-197 | template_2 adds exactly the border and then the watermark overlay on a fresh slot, or the `null` pass-through with no input, ending in `[templated]` |
| PlanProperties.SubtitleShape | render_engine.py:201-214 | a recognised style adds one subtitles fragment with the style's descriptor and no input; otherwise nothing changes |
| PlanProperties.UnsupportedCropIgnored | render_engine.py:150-151 | an unsupported crop mode, or a portrait or square source, compiles exactly as with no crop mode |
| PlanProperties.UnsupportedTemplateIgnored | render_engine.py:198-199 | an unknown template id compiles exactly as with no template |
| PlanProperties.UnsupportedSubtitleStyleIgnored | render_engine.py:208-214 | an unknown subtitle style compiles exactly as with no style |
| PlanProperties.NoFragmentsIffNoStage | render_engine.py:218-225 | the fragment list is empty exactly when no stage applies, and then the state is the initial one |
| PlanProperties.CompiledOutputsFresh | render_engine.py:147-212 | every label the compiled chain writes is fresh: no two fragments write the same label and none writes `[0:v]`, so each label a fragment reads names one stream |
| RenderPlan.OutputPath | render_engine.py:135 | reproduces `os.path.join(OUTPUTS_DIR, f"final_render.{...}")`: `outputs/final_render.` followed by the configured format, `mp4` when the key is absent |
| RenderPlan.TruncDiv | render_engine.py:145-146 | reproduces Python's `int()` applied to an exact quotient: truncation toward zero, not Dafny's Euclidean division |
| RenderPlan.TruncDivTruncates | render_engine.py:145-146 | the truncated quotient times the divisor lies within one divisor of the dividend: at or below it for a non-negative dividend, at or above it for a negative one |
| RenderPlan.CropWidth | render_engine.py:145 | reproduces `int(input_height * 9/16)`: for a non-negative height, 16 times the width is at most 9h and more than 9h - 16; for a negative height the bound is mirrored, rounding toward zero |
| RenderPlan.CropOffset | render_engine.py:146 | reproduces `int((input_width - target_width) / 2)`: twice the offset is the margin, or one less when the margin is odd and positive, one more when it is odd and negative |
| RenderPlan.OutLabel | render_engine.py:147-212 | the label each stage writes: `[cropped]` (149), `[zoomed]` (161), `[bar_applied]` for both bar variants (174, 178), `[templated]` for the brand text, the watermark and the `null` pass-through (181, 193, 197), `[bordered]` (185), `[subtitled]` (212) |
| RenderPlan.OutLabelIsFresh | render_engine.py:147-212 | every label a stage writes is bracketed and differs from the source video's `[0:v]` |
| RenderPlan.Body | render_engine.py:147-210 | reproduces each f-string between its labels: the crop with its three numbers in decimal and `y=0`, the zoom with the rate printed as `0.05`, both overlays, both drawboxes, the brand drawtext, `null`, and the subtitles filter with the escaped path and the style in single quotes |
| RenderPlan.SlotLabel | render_engine.py:171 | reproduces `f"[{next_input_idx}:v]"`: the decimal numeral of the slot between `[` and `:v]`; a slot after the source video never reads as `[0:v]` |
| RenderPlan.StyleLookup | render_engine.py:204-209 | reproduces `style_map.get(subtitle_style)`: the two style names give their exact descriptors and every other name gives None; both descriptors are non-empty, so the truthiness test passes exactly for the two names |
| FilterPath.ReplaceBackslashPairs | render_engine.py:210 | reproduces `.replace('\\\\', '/')`: each backslash pair, scanned left to right without overlap, becomes `/` |
| FilterPath.EscapeColons | render_engine.py:210 | reproduces `.replace(':', '\\\\:')`: each colon becomes two backslashes followed by the colon |
| FilterPath.EscapeFilterPath | render_engine.py:210 | the two replacements in the source's order: backslash pairs first, then colons |
| RenderPlan.Finalize | render_engine.py:216-225 | reproduces the assembly decision: the inputs are the source video then the assets; with fragments, the graph is their `;`-join, the video map the current label and the audio map `0:a?`; without, no graph and `[0:v]`, `[0:a]` |
| CommandLine.Serialize | render_engine.py:216-241 | reproduces `final_cmd + maps_args + output_options_args`: `ffmpeg`, the `-i` pairs, the optional `-filter_complex` pair, the two `-map` pairs, the encoder flags and the output path |
| Strings.Join | render_engine.py:219 | reproduces `";".join(parts)`: the parts with the separator between consecutive ones, the empty text for no parts |
| FilterPath.EscapeFilterPathRoundTrip | render_engine.py:210 | un-escaping the colons of the escaped subtitle path gives back the path with each `\\` pair turned into `/`: the escaping loses nothing else |
| FilterPath.UnescapeEscapeColons | render_engine.py:210 | colon escaping is undone by un-escaping, on any text without a backslash pair |
| FilterPath.ReplaceLeavesNoPair | render_engine.py:210 | after the first replacement no `\\` pair is left, and only the empty path maps to the empty text |
| FilterPath.ColonsAreEscaped | render_engine.py:210 | every `:` in the escaped text is preceded by two backslashes |
| FilterPath.PlainPathUnchanged | render_engine.py:210 | a path with no backslash and no colon is embedded unchanged |
| Strings.NatToStringRoundTrip | render_engine.py:171 | the decimal text of a slot number reads back as that number |
| Strings.NatToStringInjective | render_engine.py:190 | different slot numbers have different decimal texts |

## Left out

- Reading the configuration file, downloading, probing with ffprobe,
  running ffmpeg, the thumbnail and the command-line entry point are not part
  of this model. Only the command builder is modelled.
- Logging: the warnings for unsupported options and missing assets only
  report, and are not modelled.
- The two `os.path.exists` checks on the asset files are parameters
  (`brandAssetPresent`, `watermarkAssetPresent`), not file-system queries.
- The probed `duration` is read by the source but never used, so it is not
  part of `VideoInfo`.
- Configuration values are modelled as strings (absent = `None`), with
  `zoom_effect` as its truthiness. Non-string JSON values for the string keys
  are not modelled.
- RenderPlan.CropWidth, RenderPlan.CropOffset (and so
  PlanProperties.CenterCropGeometry): the source computes the crop width with
  the float product `height * (9/16)`, and the offset with a float division.
  The model uses exact rational arithmetic, truncated toward zero. The two
  agree as long as the products are exactly representable as doubles, which
  holds for every realistic frame height. Float rounding for huge heights is
  not modelled.
- A `render_config` that is not an object, or a list- or object-valued
  `subtitle_style`, makes the source raise (render_engine.py:135 and 208).
  These crashes are not modelled.
- The zoom rate 0.05 appears only as its printed text `0.05`. The zoom's
  float semantics inside ffmpeg are not modelled.
- FilterPath.EscapeFilterPath: escapes only `\\` pairs and colons, as the
  source does. A single quote in the subtitle path is not escaped, and the
  model does not claim the filter text stays well formed for such paths.
- What ffmpeg does with the command (filter-graph parsing, whether a bracketed
  `-map [0:a]` is accepted) is outside the model.
- The model assumes a POSIX host and Python 3.12 or later. `os.path.join`
  (render_engine.py:135, 168, 187) is modelled with `/` as the separator.
  The backslashes inside the f-string replacement field at line 210 are
  accepted only by the f-string parsing of Python 3.12 and later; earlier
  versions reject the module.
