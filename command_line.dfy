/**
 * The ffmpeg argument list the compiler hands to the execution boundary:
 * `ffmpeg`, the `-i` inputs in slot order, an optional `-filter_complex`,
 * the video and audio `-map`s, the fixed encoder flags, the output path.
 * ParseCommand reads such a list back; the two are inverse to each other.
 */
module CommandLine {
  import opened Wrappers

  /** A compiled plan: inputs[0] is the source video, later inputs are assets. */
  datatype CommandPlan = CommandPlan(
    inputs: seq<string>,
    filterGraph: Option<string>,
    videoMap: string,
    audioMap: string,
    outputPath: string)

  /**
   * Fixed encoder policy: H.264, yuv420p, medium preset, crf 23, AAC 128k,
   * overwrite. No flag is one of the options that delimit the inputs, the
   * filter graph or the maps.
   */
  const EncoderFlags: seq<string> :=
    ["-c:v", "libx264", "-pix_fmt", "yuv420p", "-preset", "medium", "-crf", "23",
     "-c:a", "aac", "-b:a", "128k", "-y"]

  /** No encoder flag can be read as an input, filter-graph or map option. */
  lemma EncoderFlagsAreNotDelimiters()
    ensures forall i :: 0 <= i < |EncoderFlags| ==>
              EncoderFlags[i] != "-i" && EncoderFlags[i] != "-map" && EncoderFlags[i] != "-filter_complex"
  {
  }

  /** `-i x` for every input, in order. */
  function InputArgs(inputs: seq<string>): (args: seq<string>)
    ensures |args| == 2 * |inputs|
  {
    if inputs == [] then [] else ["-i", inputs[0]] + InputArgs(inputs[1..])
  }

  /** The k-th `-i` pair names the k-th input. */
  lemma {:induction false} InputArgsAt(inputs: seq<string>, k: nat)
    requires k < |inputs|
    ensures InputArgs(inputs)[2 * k] == "-i" && InputArgs(inputs)[2 * k + 1] == inputs[k]
    decreases k
  {
    if k > 0 {
      InputArgsAt(inputs[1..], k - 1);
    }
  }

  /** Adding one more input appends one more `-i` pair. */
  lemma {:induction false} InputArgsSnoc(inputs: seq<string>, x: string)
    ensures InputArgs(inputs + [x]) == InputArgs(inputs) + ["-i", x]
    decreases |inputs|
  {
    if inputs != [] {
      assert (inputs + [x])[1..] == inputs[1..] + [x];
      InputArgsSnoc(inputs[1..], x);
    }
  }

  function FilterArgs(filterGraph: Option<string>): seq<string>
  {
    match filterGraph
    case None => []
    case Some(g) => ["-filter_complex", g]
  }

  function Serialize(p: CommandPlan): seq<string>
  {
    ["ffmpeg"] + InputArgs(p.inputs) + FilterArgs(p.filterGraph) + MapArgs(p)
  }

  /**
   * The fixed order of the arguments: the program name, one `-i` pair per
   * input, the optional filter graph, the video map, the audio map, the
   * encoder flags and last the output path.
   */
  lemma SerializeLayout(p: CommandPlan)
    ensures var cmd := Serialize(p);
            var n := 1 + 2 * |p.inputs| + |FilterArgs(p.filterGraph)|;
            && |cmd| == n + 5 + |EncoderFlags|
            && cmd[0] == "ffmpeg"
            && (forall k :: 0 <= k < |p.inputs| ==> cmd[1 + 2 * k] == "-i" && cmd[2 + 2 * k] == p.inputs[k])
            && (p.filterGraph.Some? ==> cmd[n - 2] == "-filter_complex" && cmd[n - 1] == p.filterGraph.value)
            && cmd[n] == "-map" && cmd[n + 1] == p.videoMap
            && cmd[n + 2] == "-map" && cmd[n + 3] == p.audioMap
            && cmd[n + 4..n + 4 + |EncoderFlags|] == EncoderFlags
            && cmd[|cmd| - 1] == p.outputPath
  {
    var cmd := Serialize(p);
    var n := 1 + 2 * |p.inputs| + |FilterArgs(p.filterGraph)|;
    forall k | 0 <= k < |p.inputs|
      ensures cmd[1 + 2 * k] == "-i" && cmd[2 + 2 * k] == p.inputs[k]
    {
      SerializedInput(p, k);
    }
    SerializedTail(p);
    var maps := MapArgs(p);
    assert cmd[n..] == maps;
    assert cmd[n] == maps[0] && cmd[n + 1] == maps[1] && cmd[n + 2] == maps[2] && cmd[n + 3] == maps[3];
    assert maps[4..4 + |EncoderFlags|] == EncoderFlags;
    assert cmd[n + 4..n + 4 + |EncoderFlags|] == maps[4..4 + |EncoderFlags|];
    assert cmd[|cmd| - 1] == maps[|maps| - 1];
  }

  /** Input k of a plan is loaded by the `-i` pair at positions 1 + 2k and 2 + 2k. */
  lemma SerializedInput(p: CommandPlan, k: nat)
    requires k < |p.inputs|
    ensures |Serialize(p)| > 2 + 2 * k
    ensures Serialize(p)[1 + 2 * k] == "-i" && Serialize(p)[2 + 2 * k] == p.inputs[k]
  {
    var head := ["ffmpeg"] + InputArgs(p.inputs);
    RegroupArgs(["ffmpeg"], InputArgs(p.inputs), FilterArgs(p.filterGraph), MapArgs(p));
    assert Serialize(p) == head + (FilterArgs(p.filterGraph) + MapArgs(p));
    InputArgsAt(p.inputs, k);
    assert Serialize(p)[1 + 2 * k] == head[1 + 2 * k];
    assert Serialize(p)[2 + 2 * k] == head[2 + 2 * k];
  }

  /** After the program name and the inputs come the filter arguments, then the maps. */
  lemma SerializedTail(p: CommandPlan)
    ensures var cmd := Serialize(p);
            var n := 1 + 2 * |p.inputs| + |FilterArgs(p.filterGraph)|;
            && |cmd| == n + |MapArgs(p)|
            && cmd[0] == "ffmpeg"
            && cmd[n..] == MapArgs(p)
            && (p.filterGraph.Some? ==> cmd[n - 2] == "-filter_complex" && cmd[n - 1] == p.filterGraph.value)
  {
    var front := ["ffmpeg"] + InputArgs(p.inputs) + FilterArgs(p.filterGraph);
    var cmd := Serialize(p);
    assert cmd == front + MapArgs(p);
    assert cmd[0] == front[0];
    if p.filterGraph.Some? {
      var n := |front|;
      assert cmd[n - 2] == front[n - 2] && cmd[n - 1] == front[n - 1];
    }
  }

  /** Greedily reads `-i x` pairs off the front; returns the inputs and the rest. */
  function SplitInputs(args: seq<string>): (seq<string>, seq<string>)
    decreases |args|
  {
    if |args| >= 2 && args[0] == "-i" then
      var (ins, rest) := SplitInputs(args[2..]);
      ([args[1]] + ins, rest)
    else ([], args)
  }

  /** Reads the two maps, the encoder flags and the output path. */
  function ParseMaps(inputs: seq<string>, graph: Option<string>, tail: seq<string>): Option<CommandPlan>
  {
    if |tail| == 5 + |EncoderFlags| && tail[0] == "-map" && tail[2] == "-map"
       && tail[4..4 + |EncoderFlags|] == EncoderFlags
    then Some(CommandPlan(inputs, graph, tail[1], tail[3], tail[|tail| - 1]))
    else None
  }

  /** Reads the part after the inputs: an optional filter graph, then the maps. */
  function ParseTail(inputs: seq<string>, rest: seq<string>): Option<CommandPlan>
  {
    if |rest| >= 2 && rest[0] == "-filter_complex" then ParseMaps(inputs, Some(rest[1]), rest[2..])
    else ParseMaps(inputs, None, rest)
  }

  function MapArgs(p: CommandPlan): seq<string>
  {
    ["-map", p.videoMap, "-map", p.audioMap] + EncoderFlags + [p.outputPath]
  }

  lemma ParseMapArgs(p: CommandPlan)
    ensures ParseMaps(p.inputs, p.filterGraph, MapArgs(p)) == Some(p)
  {
    var t := MapArgs(p);
    assert t[4..4 + |EncoderFlags|] == EncoderFlags;
  }

  lemma MapArgsOfParse(inputs: seq<string>, graph: Option<string>, tail: seq<string>)
    requires ParseMaps(inputs, graph, tail).Some?
    ensures MapArgs(ParseMaps(inputs, graph, tail).value) == tail
  {
    var p := ParseMaps(inputs, graph, tail).value;
    assert tail == tail[..4] + tail[4..4 + |EncoderFlags|] + tail[4 + |EncoderFlags|..];
  }

  function ParseCommand(args: seq<string>): Option<CommandPlan>
  {
    if |args| == 0 || args[0] != "ffmpeg" then None
    else
      var (ins, rest) := SplitInputs(args[1..]);
      ParseTail(ins, rest)
  }

  /** The input list stops at the first argument that is not `-i`. */
  lemma {:induction false} SplitInputArgs(inputs: seq<string>, rest: seq<string>)
    requires rest == [] || rest[0] != "-i"
    ensures SplitInputs(InputArgs(inputs) + rest) == (inputs, rest)
    decreases |inputs|
  {
    if inputs != [] {
      var tail := InputArgs(inputs[1..]) + rest;
      var a := InputArgs(inputs) + rest;
      assert a == ["-i", inputs[0]] + tail;
      assert a[2..] == tail;
      SplitInputArgs(inputs[1..], rest);
      assert SplitInputs(a) == ([inputs[0]] + SplitInputs(tail).0, SplitInputs(tail).1);
      assert [inputs[0]] + inputs[1..] == inputs;
    } else {
      assert InputArgs(inputs) + rest == rest;
    }
  }

  /** What SplitInputs reads off is exactly an input prefix of its argument. */
  lemma {:induction false} SplitInputsSound(args: seq<string>)
    ensures InputArgs(SplitInputs(args).0) + SplitInputs(args).1 == args
    ensures SplitInputs(args).1 == [] || SplitInputs(args).1[0] != "-i" || |SplitInputs(args).1| == 1
    decreases |args|
  {
    if |args| >= 2 && args[0] == "-i" {
      SplitInputsSound(args[2..]);
      var ins, rest := SplitInputs(args[2..]).0, SplitInputs(args[2..]).1;
      assert SplitInputs(args) == ([args[1]] + ins, rest);
      assert InputArgs([args[1]] + ins) == ["-i", args[1]] + InputArgs(ins) by {
        assert ([args[1]] + ins)[1..] == ins;
      }
      assert args == ["-i", args[1]] + args[2..];
    } else {
      assert InputArgs([]) == [];
    }
  }

  lemma ParseCommandUnfold(a: seq<string>)
    ensures ParseCommand(["ffmpeg"] + a) == ParseTail(SplitInputs(a).0, SplitInputs(a).1)
  {
    assert (["ffmpeg"] + a)[1..] == a;
  }

  lemma ParseTailOfFilter(inputs: seq<string>, p: CommandPlan)
    ensures ParseTail(inputs, FilterArgs(p.filterGraph) + MapArgs(p))
         == ParseMaps(inputs, p.filterGraph, MapArgs(p))
  {
    match p.filterGraph
    case None =>
      assert FilterArgs(p.filterGraph) + MapArgs(p) == MapArgs(p);
    case Some(g) =>
      assert (FilterArgs(p.filterGraph) + MapArgs(p))[2..] == MapArgs(p);
  }

  /** Reading back a serialized plan yields that plan. */
  lemma ParseSerialize(p: CommandPlan)
    ensures ParseCommand(Serialize(p)) == Some(p)
  {
    var tail := FilterArgs(p.filterGraph) + MapArgs(p);
    assert Serialize(p) == ["ffmpeg"] + (InputArgs(p.inputs) + tail);
    ParseCommandUnfold(InputArgs(p.inputs) + tail);
    SplitInputArgs(p.inputs, tail);
    ParseTailOfFilter(p.inputs, p);
    ParseMapArgs(p);
  }

  /** The part after the inputs that parses is the filter and map arguments of its result. */
  lemma ParseTailSound(inputs: seq<string>, rest: seq<string>)
    requires ParseTail(inputs, rest).Some?
    ensures ParseTail(inputs, rest).value.inputs == inputs
    ensures FilterArgs(ParseTail(inputs, rest).value.filterGraph) + MapArgs(ParseTail(inputs, rest).value) == rest
  {
    var p := ParseTail(inputs, rest).value;
    if |rest| >= 2 && rest[0] == "-filter_complex" {
      MapArgsOfParse(inputs, Some(rest[1]), rest[2..]);
      assert rest == [rest[0], rest[1]] + rest[2..];
    } else {
      MapArgsOfParse(inputs, None, rest);
    }
  }

  /** A list that parses is exactly the serialization of what it parses to. */
  lemma SerializeParse(args: seq<string>)
    requires ParseCommand(args).Some?
    ensures Serialize(ParseCommand(args).value) == args
  {
    var a := args[1..];
    assert args == ["ffmpeg"] + a;
    ParseCommandUnfold(a);
    var ins, rest := SplitInputs(a).0, SplitInputs(a).1;
    assert ParseCommand(args) == ParseTail(ins, rest);
    SplitInputsSound(a);
    ParseTailSound(ins, rest);
    var p := ParseTail(ins, rest).value;
    RegroupArgs(["ffmpeg"], InputArgs(ins), FilterArgs(p.filterGraph), MapArgs(p));
  }

  lemma RegroupArgs(a: seq<string>, b: seq<string>, c: seq<string>, d: seq<string>)
    ensures a + b + c + d == a + (b + (c + d))
  {
  }
}
