/**
 * The render-plan compiler as a specification: the render configuration and
 * the probed geometry select an ordered list of stages (crop, zoom, template,
 * subtitles); running the stages from the initial state threads the current
 * video label, hands out input slots to overlay assets and accumulates one
 * filter-graph fragment per stage; Finalize turns the end state into a plan.
 */
module RenderPlan {
  import opened Wrappers
  import opened Strings
  import opened FilterPath
  import opened CommandLine

  const OutputsDir := "outputs"
  const BrandBarAsset := "assets/brand_bar.png"
  const WatermarkAsset := "assets/watermark_logo.png"

  /** The decoded streams of input 0, as the source spells them. */
  const SourceVideo := "[0:v]"
  const SourceAudio := "[0:a]"
  /** Audio of input 0, marked optional, as mapped next to a filter graph. */
  const OptionalSourceAudio := "0:a?"

  /** The two recognised subtitle styles and their force_style descriptors. */
  const StyleMap: map<string, string> := map[
    "bold_white_box" := "FontName=Arial,FontSize=24,PrimaryColour=&H00FFFFFF&,Bold=1,BorderStyle=3,OutlineColour=&H80000000&,BackColour=&H80000000&,MarginV=15",
    "yellow_bold" := "FontName=Arial,FontSize=24,PrimaryColour=&H0000FFFF&,Bold=1,BorderStyle=1,Outline=1,MarginV=15"
  ]

  /**
   * style_map.get(style): the descriptor of a recognised style, None for any
   * other name. Every descriptor is non-empty, so the truthiness test on the
   * looked-up value passes exactly for the recognised styles.
   */
  function StyleLookup(style: string): (forceStyle: Option<string>)
    ensures forceStyle.Some? <==> style in StyleMap
    ensures forceStyle.Some? ==> forceStyle.value == StyleMap[style] && forceStyle.value != ""
  {
    if style in StyleMap then Some(StyleMap[style]) else None
  }

  /**
   * The render_config object. A string key is None when absent; zoomEffect
   * stands for the truthiness of the `zoom_effect` value.
   */
  datatype RenderConfig = RenderConfig(
    cropMode: Option<string>,
    zoomEffect: bool,
    templateId: Option<string>,
    subtitleStyle: Option<string>,
    outputFormat: Option<string>)

  /** Probed geometry of the source video (the duration is never used). */
  datatype VideoInfo = VideoInfo(width: int, height: int)

  /** outputs/final_render.<output_format, default mp4> */
  function OutputPath(cfg: RenderConfig): string
  {
    OutputsDir + "/final_render." + (match cfg.outputFormat case None => "mp4" case Some(f) => f)
  }

  /** Python's int() of the exact quotient a / b (not Dafny's Euclidean division). */
  function TruncDiv(a: int, b: int): int
    requires b > 0
  {
    if a >= 0 then a / b else -((-a) / b)
  }

  /**
   * The quotient is truncated toward zero: rounded down for a non-negative
   * dividend, rounded up for a negative one.
   */
  lemma TruncDivTruncates(a: int, b: int)
    requires b > 0
    ensures var q := TruncDiv(a, b);
            && (a >= 0 ==> q * b <= a < q * b + b)
            && (a < 0 ==> q * b - b < a <= q * b)
  {
    var q := TruncDiv(a, b);
    var n := if a >= 0 then a else -a;
    var d, r := n / b, n % b;
    assert n == d * b + r && 0 <= r < b;
    if a >= 0 {
      assert q == d;
    } else {
      assert q == -d;
      assert q * b == -(d * b);
    }
  }

  /** int(height * 9/16): the width of a 9:16 frame of the given height. */
  function CropWidth(height: int): (w: int)
    ensures height >= 0 ==> 0 <= 16 * w <= 9 * height < 16 * w + 16
    ensures height < 0 ==> 16 * w - 16 < 9 * height <= 16 * w <= 0
  {
    TruncDivTruncates(height * 9, 16);
    TruncDiv(height * 9, 16)
  }

  /** int((width - target_width) / 2): the left edge of the centred crop. */
  function CropOffset(width: int, height: int): (x: int)
    ensures width - CropWidth(height) >= 0 ==> 0 <= 2 * x <= width - CropWidth(height) <= 2 * x + 1
    ensures width - CropWidth(height) < 0 ==> 2 * x - 1 <= width - CropWidth(height) <= 2 * x <= 0
  {
    TruncDivTruncates(width - CropWidth(height), 2);
    TruncDiv(width - CropWidth(height), 2)
  }

  /** One filter-graph transformation the compiler can emit. */
  datatype Stage =
    | CenterCrop(cropWidth: int, cropHeight: int, offsetX: int)
    | Zoom
    | BrandBarOverlay
    | BrandBarFallback
    | BrandText
    | Border
    | WatermarkOverlay
    | WatermarkSkipped
    | Subtitles(srtPath: string, forceStyle: string)

  /** The asset file a stage overlays, if it reads one. */
  function AssetOf(s: Stage): Option<string>
  {
    match s
    case BrandBarOverlay => Some(BrandBarAsset)
    case WatermarkOverlay => Some(WatermarkAsset)
    case _ => None
  }

  /** The label a stage gives its output; it becomes the current label. */
  function OutLabel(s: Stage): string
  {
    match s
    case CenterCrop(_, _, _) => "[cropped]"
    case Zoom => "[zoomed]"
    case BrandBarOverlay => "[bar_applied]"
    case BrandBarFallback => "[bar_applied]"
    case BrandText => "[templated]"
    case Border => "[bordered]"
    case WatermarkOverlay => "[templated]"
    case WatermarkSkipped => "[templated]"
    case Subtitles(_, _) => "[subtitled]"
  }

  /** Every output label is a bracketed name, and never the source video's label. */
  lemma OutLabelIsFresh(s: Stage)
    ensures var name := OutLabel(s);
            |name| >= 2 && name[0] == '[' && name[|name| - 1] == ']' && name != SourceVideo
  {
  }

  /** The filter text between a fragment's input labels and its output label. */
  function Body(s: Stage): string
  {
    match s
    case CenterCrop(w, h, x) =>
      "crop=w=" + IntToString(w) + ":h=" + IntToString(h) + ":x=" + IntToString(x) + ":y=0"
    case Zoom => "scale=w='iw*pow(1+0.05,t)':h='ih*pow(1+0.05,t)':eval=frame,crop=iw:ih"
    case BrandBarOverlay => "overlay=x=0:y=ih-overlay_h"
    case BrandBarFallback => "drawbox=x=0:y=ih-50:w=iw:h=50:color=blue@0.7:t=fill"
    case BrandText =>
      "drawtext=text='Your Brand Here':x=(w-text_w)/2:y=20:fontsize=24:fontcolor=white:box=1:boxcolor=black@0.5:boxborderw=5"
    case Border => "drawbox=x=10:y=10:w=iw-20:h=ih-20:color=white:t=5"
    case WatermarkOverlay => "overlay=x=iw-overlay_w-10:y=ih-overlay_h-10"
    case WatermarkSkipped => "null"
    case Subtitles(path, style) =>
      "subtitles=filename='" + EscapeFilterPath(path) + "':force_style='" + style + "'"
  }

  /**
   * `[k:v]`: the video stream of input slot k. The decimal numeral of k sits
   * between the bracket and `:v]`; a slot after the source video never reads
   * as `[0:v]`.
   */
  function SlotLabel(k: nat): (name: string)
    ensures |name| >= 5 && name[0] == '[' && name[|name| - 3..] == ":v]"
    ensures name[1..|name| - 3] == NatToString(k)
    ensures k > 0 ==> name != SourceVideo
  {
    "[" + NatToString(k) + ":v]"
  }

  /** A fragment: the label it reads, its stage, and its asset's slot (0 if none). */
  datatype Fragment = Fragment(input: string, stage: Stage, slot: nat)

  function Output(f: Fragment): string
  {
    OutLabel(f.stage)
  }

  function FragmentText(f: Fragment): string
  {
    if AssetOf(f.stage).Some? then f.input + SlotLabel(f.slot) + Body(f.stage) + Output(f)
    else f.input + Body(f.stage) + Output(f)
  }

  function Texts(fragments: seq<Fragment>): (texts: seq<string>)
    ensures |texts| == |fragments|
  {
    seq(|fragments|, i requires 0 <= i < |fragments| => FragmentText(fragments[i]))
  }

  /**
   * Compiler state between stages: the current video label, the next free
   * input slot, the asset files allocated so far and the fragments so far.
   */
  datatype Chain = Chain(current: string, nextInput: nat, assets: seq<string>, fragments: seq<Fragment>)

  const Initial := Chain(SourceVideo, 1, [], [])

  /** Applies one stage: read the current label, allocate a slot if needed, rebind. */
  function Step(c: Chain, s: Stage): Chain
  {
    match AssetOf(s)
    case Some(path) =>
      Chain(OutLabel(s), c.nextInput + 1, c.assets + [path], c.fragments + [Fragment(c.current, s, c.nextInput)])
    case None =>
      Chain(OutLabel(s), c.nextInput, c.assets, c.fragments + [Fragment(c.current, s, 0)])
  }

  /** Applies the stages in order. */
  function Run(c: Chain, stages: seq<Stage>): Chain
    decreases |stages|
  {
    if stages == [] then c else Run(Step(c, stages[0]), stages[1..])
  }

  // ---------------------------------------------------------------------
  // Stage selection
  // ---------------------------------------------------------------------

  /** Crop applies only to `center_crop` on a landscape source. */
  function CropStages(cfg: RenderConfig, info: VideoInfo): seq<Stage>
  {
    if cfg.cropMode == Some("center_crop") && info.width > info.height
    then [CenterCrop(CropWidth(info.height), info.height, CropOffset(info.width, info.height))]
    else []
  }

  function ZoomStages(cfg: RenderConfig): seq<Stage>
  {
    if cfg.zoomEffect then [Zoom] else []
  }

  /** template_1: a bar (overlay or fallback box), then the brand text; template_2: a border, then a watermark or a pass-through. */
  function TemplateStages(cfg: RenderConfig, brandAssetPresent: bool, watermarkAssetPresent: bool): seq<Stage>
  {
    if cfg.templateId == Some("template_1") then
      [if brandAssetPresent then BrandBarOverlay else BrandBarFallback, BrandText]
    else if cfg.templateId == Some("template_2") then
      [Border, if watermarkAssetPresent then WatermarkOverlay else WatermarkSkipped]
    else []
  }

  function SubtitleStages(cfg: RenderConfig, srtPath: string): seq<Stage>
  {
    if cfg.subtitleStyle.Some? && cfg.subtitleStyle.value in StyleMap
    then [Subtitles(srtPath, StyleMap[cfg.subtitleStyle.value])]
    else []
  }

  function PlannedStages(cfg: RenderConfig, info: VideoInfo, srtPath: string,
                         brandAssetPresent: bool, watermarkAssetPresent: bool): seq<Stage>
  {
    CropStages(cfg, info) + ZoomStages(cfg)
      + TemplateStages(cfg, brandAssetPresent, watermarkAssetPresent) + SubtitleStages(cfg, srtPath)
  }

  /** The compiler's end state for a configuration, geometry and asset availability. */
  function Compile(cfg: RenderConfig, info: VideoInfo, srtPath: string,
                   brandAssetPresent: bool, watermarkAssetPresent: bool): Chain
  {
    Run(Initial, PlannedStages(cfg, info, srtPath, brandAssetPresent, watermarkAssetPresent))
  }

  /**
   * Finalize: with fragments, the graph is their `;`-join, the video map is
   * the current label and audio is optional; without, both source streams are
   * mapped directly and no graph is emitted.
   */
  function Finalize(videoPath: string, c: Chain, outputPath: string): CommandPlan
  {
    if c.fragments == [] then
      CommandPlan([videoPath] + c.assets, None, SourceVideo, SourceAudio, outputPath)
    else
      CommandPlan([videoPath] + c.assets, Some(Join(Texts(c.fragments), ";")), c.current,
                  OptionalSourceAudio, outputPath)
  }
}
