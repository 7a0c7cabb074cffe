/** The encoder invocation the render handler builds: the video filter chosen by
    orientation, and the fixed argument layout of the `ffmpeg` command. A reader of the
    ffmpeg command line (global options, inputs with their options, outputs with their
    options) is the partner that says what the flat argument list means. */
module FfmpegCommand {
  import opened Wrappers

  /** `req.body.orientation || "landscape"`: a missing or empty field means landscape,
      any other text is kept as given. */
  function EffectiveOrientation(field: Option<string>): (o: string)
    ensures field.None? ==> o == "landscape"
    ensures field == Some("") ==> o == "landscape"
    ensures field.Some? && field.value != "" ==> o == field.value
  {
    match field
    case Some(v) => if v != "" then v else "landscape"
    case None => "landscape"
  }

  /** Scale up until the picture covers a `width` x `height` frame, keeping its aspect
      ratio, then crop it to exactly that frame. */
  function ScaleCrop(width: string, height: string): string
  {
    "scale=" + width + ":" + height + ":force_original_aspect_ratio=increase,crop=" + width + ":" + height
  }

  /** The 1920x1080 chain. */
  function LandscapeFilter(): string
  {
    ScaleCrop("1920", "1080")
  }

  /** The 1080x1920 chain. */
  function PortraitFilter(): string
  {
    ScaleCrop("1080", "1920")
  }

  /** The two chains differ (`1920` against `1080` after `scale=`). */
  lemma FiltersDiffer()
    ensures LandscapeFilter() != PortraitFilter()
  {
    assert LandscapeFilter()[7] == '9';
    assert PortraitFilter()[7] == '0';
  }

  /** The `-vf` chain: the portrait chain exactly for the text `portrait`, the landscape
      chain for anything else. */
  function VideoFilter(orientation: string): (f: string)
    ensures f == PortraitFilter() <==> orientation == "portrait"
    ensures f == LandscapeFilter() <==> orientation != "portrait"
  {
    FiltersDiffer();
    if orientation == "portrait" then PortraitFilter() else LandscapeFilter()
  }

  /** From the request field to the chain: portrait only when the field says `portrait`;
      a missing field, an empty one or any other text gives landscape. */
  lemma FilterForField(field: Option<string>)
    ensures VideoFilter(EffectiveOrientation(field)) == PortraitFilter() <==> field == Some("portrait")
    ensures VideoFilter(EffectiveOrientation(field)) == LandscapeFilter() <==> field != Some("portrait")
  {
  }

  /** The argument vector of the encoder command, word by word as the shell splits it. */
  function EncoderArgv(concatFile: string, audioPath: string, videoFilter: string, outputFile: string): (argv: seq<string>)
    ensures |argv| == 32 && argv[0] == "ffmpeg"
    ensures argv[6] == "-i" && argv[7] == concatFile
    ensures argv[8] == "-i" && argv[9] == audioPath
    ensures argv[15] == videoFilter && argv[30] == "-shortest"
    ensures argv[|argv| - 1] == outputFile
  {
    ["ffmpeg"] + InputWords(concatFile, audioPath) + VideoWords(videoFilter) + EncodingWords(outputFile)
  }

  /** Overwrite without asking; the manifest through the concat demuxer (absolute paths
      allowed), then the audio file. */
  function InputWords(concatFile: string, audioPath: string): seq<string>
  {
    ["-y", "-f", "concat", "-safe", "0", "-i", concatFile, "-i", audioPath]
  }

  /** Video from input 0, audio from input 1, the filter chain, the video codec and preset. */
  function VideoWords(videoFilter: string): seq<string>
  {
    ["-map", "0:v:0", "-map", "1:a:0", "-vf", videoFilter, "-c:v", "libx264", "-preset", "fast"]
  }

  /** H.264 profile, level and pixel format, AAC audio at 192k, stop at the shorter stream,
      and the output path. */
  function EncodingWords(outputFile: string): seq<string>
  {
    ["-profile:v", "high", "-level", "4.2", "-pix_fmt", "yuv420p", "-c:a", "aac", "-b:a", "192k",
     "-shortest", outputFile]
  }

  /** One option: a name and, unless it is a flag, its value. */
  datatype Opt = Opt(name: string, value: Option<string>)

  /** An input or output file with the options that precede it. */
  datatype FileOperand = FileOperand(options: seq<Opt>, path: string)

  /** A command line as ffmpeg reads it. */
  datatype Invocation = Invocation(globals: seq<Opt>, inputs: seq<FileOperand>, outputs: seq<FileOperand>)

  /** A word that ffmpeg reads as an option name. */
  predicate IsOptionWord(t: string)
  {
    |t| > 0 && t[0] == '-'
  }

  /** The options of this command that take no value: `-y` (overwrite, for the whole
      run) and `-shortest` (for the output it precedes). */
  predicate IsFlagWord(t: string)
  {
    t == "-y" || t == "-shortest"
  }

  /** Read the words after the program name. Options gather in `pending` until a file
      claims them: `-i <path>` makes an input, a word that is not an option makes an
      output. An option left with no value, or options after the last file, make the
      command unreadable. */
  function ReadArgs(args: seq<string>, pending: seq<Opt>, acc: Invocation): Option<Invocation>
    decreases |args|
  {
    if args == [] then
      if pending == [] then Some(acc) else None
    else
      var t := args[0];
      if t == "-y" then
        ReadArgs(args[1..], pending, acc.(globals := acc.globals + [Opt(t, None)]))
      else if t == "-shortest" then
        ReadArgs(args[1..], pending + [Opt(t, None)], acc)
      else if t == "-i" then
        if |args| < 2 then None
        else ReadArgs(args[2..], [], acc.(inputs := acc.inputs + [FileOperand(pending, args[1])]))
      else if IsOptionWord(t) then
        if |args| < 2 then None
        else ReadArgs(args[2..], pending + [Opt(t, Some(args[1]))], acc)
      else
        ReadArgs(args[1..], [], acc.(outputs := acc.outputs + [FileOperand(pending, t)]))
  }

  /** Read a whole `ffmpeg` command line. */
  function ReadCommandLine(argv: seq<string>): Option<Invocation>
  {
    if argv == [] || argv[0] != "ffmpeg" then None
    else ReadArgs(argv[1..], [], Invocation([], [], []))
  }

  // One step of `ReadArgs` per kind of word; the proofs below chain them.

  lemma StepGlobalFlag(args: seq<string>, pending: seq<Opt>, acc: Invocation)
    requires |args| >= 1 && args[0] == "-y"
    ensures ReadArgs(args, pending, acc)
         == ReadArgs(args[1..], pending, acc.(globals := acc.globals + [Opt("-y", None)]))
  {
  }

  lemma StepFileFlag(args: seq<string>, pending: seq<Opt>, acc: Invocation)
    requires |args| >= 1 && args[0] == "-shortest"
    ensures ReadArgs(args, pending, acc) == ReadArgs(args[1..], pending + [Opt("-shortest", None)], acc)
  {
  }

  lemma StepInput(args: seq<string>, pending: seq<Opt>, acc: Invocation)
    requires |args| >= 2 && args[0] == "-i"
    ensures ReadArgs(args, pending, acc)
         == ReadArgs(args[2..], [], acc.(inputs := acc.inputs + [FileOperand(pending, args[1])]))
  {
  }

  lemma StepValue(args: seq<string>, pending: seq<Opt>, acc: Invocation)
    requires |args| >= 2 && IsOptionWord(args[0]) && !IsFlagWord(args[0]) && args[0] != "-i"
    ensures ReadArgs(args, pending, acc) == ReadArgs(args[2..], pending + [Opt(args[0], Some(args[1]))], acc)
  {
  }

  lemma StepOutput(args: seq<string>, pending: seq<Opt>, acc: Invocation)
    requires |args| >= 1 && !IsOptionWord(args[0])
    ensures ReadArgs(args, pending, acc)
         == ReadArgs(args[1..], [], acc.(outputs := acc.outputs + [FileOperand(pending, args[0])]))
  {
  }

  /** The options that precede the output file. */
  function OutputOptions(videoFilter: string): seq<Opt>
  {
    [Opt("-map", Some("0:v:0")), Opt("-map", Some("1:a:0")), Opt("-vf", Some(videoFilter)),
     Opt("-c:v", Some("libx264")), Opt("-preset", Some("fast")), Opt("-profile:v", Some("high")),
     Opt("-level", Some("4.2")), Opt("-pix_fmt", Some("yuv420p")), Opt("-c:a", Some("aac")),
     Opt("-b:a", Some("192k")), Opt("-shortest", None)]
  }

  /** The encoder command as ffmpeg reads it: `-y` for the whole run; input 0 is the
      manifest read by the concat demuxer (`-f concat -safe 0`), input 1 the audio file;
      one output with the stream selection, filter, codecs and `-shortest`. */
  function EncoderInvocation(concatFile: string, audioPath: string, videoFilter: string, outputFile: string): Invocation
  {
    Invocation(
      [Opt("-y", None)],
      [FileOperand([Opt("-f", Some("concat")), Opt("-safe", Some("0"))], concatFile), FileOperand([], audioPath)],
      [FileOperand(OutputOptions(videoFilter), outputFile)])
  }

  /** Reading the global flag and the two inputs. */
  lemma ReadInputWords(concatFile: string, audioPath: string, rest: seq<string>)
    ensures ReadArgs(InputWords(concatFile, audioPath) + rest, [], Invocation([], [], []))
         == ReadArgs(rest, [], Invocation([Opt("-y", None)],
                                          [FileOperand([Opt("-f", Some("concat")), Opt("-safe", Some("0"))], concatFile),
                                           FileOperand([], audioPath)], []))
  {
    var w := InputWords(concatFile, audioPath) + rest;
    var g := [Opt("-y", None)];
    var concatOpts := [Opt("-f", Some("concat")), Opt("-safe", Some("0"))];
    var in0 := FileOperand(concatOpts, concatFile);
    var in1 := FileOperand([], audioPath);
    calc {
      ReadArgs(w, [], Invocation([], [], []));
    == { StepGlobalFlag(w, [], Invocation([], [], [])); assert [] + g == g; }
      ReadArgs(w[1..], [], Invocation(g, [], []));
    == { StepValue(w[1..], [], Invocation(g, [], [])); assert [] + [concatOpts[0]] == [concatOpts[0]]; }
      ReadArgs(w[3..], [concatOpts[0]], Invocation(g, [], []));
    == { StepValue(w[3..], [concatOpts[0]], Invocation(g, [], [])); assert [concatOpts[0]] + [concatOpts[1]] == concatOpts; }
      ReadArgs(w[5..], concatOpts, Invocation(g, [], []));
    == { StepInput(w[5..], concatOpts, Invocation(g, [], [])); assert [] + [in0] == [in0]; }
      ReadArgs(w[7..], [], Invocation(g, [in0], []));
    == { StepInput(w[7..], [], Invocation(g, [in0], [])); assert [in0] + [in1] == [in0, in1]; assert w[9..] == rest; }
      ReadArgs(rest, [], Invocation(g, [in0, in1], []));
    }
  }

  /** Reading stream selection, filter and video codec options. */
  lemma ReadVideoWords(videoFilter: string, rest: seq<string>, acc: Invocation)
    ensures ReadArgs(VideoWords(videoFilter) + rest, [], acc)
         == ReadArgs(rest, OutputOptions(videoFilter)[..5], acc)
  {
    var w := VideoWords(videoFilter) + rest;
    var o := OutputOptions(videoFilter);
    calc {
      ReadArgs(w, [], acc);
    == { StepValue(w, [], acc); assert [] + [o[0]] == o[..1]; }
      ReadArgs(w[2..], o[..1], acc);
    == { StepValue(w[2..], o[..1], acc); assert o[..1] + [o[1]] == o[..2]; }
      ReadArgs(w[4..], o[..2], acc);
    == { StepValue(w[4..], o[..2], acc); assert o[..2] + [o[2]] == o[..3]; }
      ReadArgs(w[6..], o[..3], acc);
    == { StepValue(w[6..], o[..3], acc); assert o[..3] + [o[3]] == o[..4]; }
      ReadArgs(w[8..], o[..4], acc);
    == { StepValue(w[8..], o[..4], acc); assert o[..4] + [o[4]] == o[..5]; assert w[10..] == rest; }
      ReadArgs(rest, o[..5], acc);
    }
  }

  /** Reading profile, level and pixel format. */
  lemma ReadProfileWords(videoFilter: string, outputFile: string, acc: Invocation)
    ensures ReadArgs(EncodingWords(outputFile), OutputOptions(videoFilter)[..5], acc)
         == ReadArgs(EncodingWords(outputFile)[6..], OutputOptions(videoFilter)[..8], acc)
  {
    var w := EncodingWords(outputFile);
    var o := OutputOptions(videoFilter);
    calc {
      ReadArgs(w, o[..5], acc);
    == { StepValue(w, o[..5], acc); assert o[..5] + [o[5]] == o[..6]; }
      ReadArgs(w[2..], o[..6], acc);
    == { StepValue(w[2..], o[..6], acc); assert o[..6] + [o[6]] == o[..7]; }
      ReadArgs(w[4..], o[..7], acc);
    == { StepValue(w[4..], o[..7], acc); assert o[..7] + [o[7]] == o[..8]; assert w[4..][2..] == w[6..]; }
      ReadArgs(w[6..], o[..8], acc);
    }
  }

  /** Reading the audio options, `-shortest` and the output path. */
  lemma ReadAudioWords(videoFilter: string, outputFile: string, acc: Invocation)
    requires !IsOptionWord(outputFile)
    ensures ReadArgs(EncodingWords(outputFile)[6..], OutputOptions(videoFilter)[..8], acc)
         == Some(acc.(outputs := acc.outputs + [FileOperand(OutputOptions(videoFilter), outputFile)]))
  {
    var w := EncodingWords(outputFile)[6..];
    var o := OutputOptions(videoFilter);
    var done := acc.(outputs := acc.outputs + [FileOperand(o, outputFile)]);
    calc {
      ReadArgs(w, o[..8], acc);
    == { StepValue(w, o[..8], acc); assert o[..8] + [o[8]] == o[..9]; }
      ReadArgs(w[2..], o[..9], acc);
    == { StepValue(w[2..], o[..9], acc); assert o[..9] + [o[9]] == o[..10]; }
      ReadArgs(w[4..], o[..10], acc);
    == { StepFileFlag(w[4..], o[..10], acc); assert o[..10] + [o[10]] == o; }
      ReadArgs(w[5..], o, acc);
    == { StepOutput(w[5..], o, acc); assert w[6..] == []; }
      ReadArgs([], [], done);
    }
  }

  /** The flat argument list means the invocation above, whatever the paths and filter
      are, provided the output path does not look like an option. */
  lemma EncoderArgvReads(concatFile: string, audioPath: string, videoFilter: string, outputFile: string)
    requires !IsOptionWord(outputFile)
    ensures ReadCommandLine(EncoderArgv(concatFile, audioPath, videoFilter, outputFile))
         == Some(EncoderInvocation(concatFile, audioPath, videoFilter, outputFile))
  {
    var argv := EncoderArgv(concatFile, audioPath, videoFilter, outputFile);
    var inputWords := InputWords(concatFile, audioPath);
    var videoWords := VideoWords(videoFilter);
    var encodingWords := EncodingWords(outputFile);
    assert argv[1..] == inputWords + (videoWords + encodingWords);
    var inv := EncoderInvocation(concatFile, audioPath, videoFilter, outputFile);
    var inputsRead := inv.(outputs := []);
    ReadInputWords(concatFile, audioPath, videoWords + encodingWords);
    ReadVideoWords(videoFilter, encodingWords, inputsRead);
    ReadProfileWords(videoFilter, outputFile, inputsRead);
    ReadAudioWords(videoFilter, outputFile, inputsRead);
    assert inputsRead.outputs + [FileOperand(OutputOptions(videoFilter), outputFile)] == inv.outputs;
  }

  /** What the layout guarantees: the concat manifest is input 0 and is read by the concat
      demuxer, the audio file is input 1, video comes from input 0 and audio from input 1,
      `-shortest` is set, and the output path is the last word. */
  lemma EncoderLayout(concatFile: string, audioPath: string, videoFilter: string, outputFile: string)
    requires !IsOptionWord(outputFile)
    ensures var argv := EncoderArgv(concatFile, audioPath, videoFilter, outputFile);
            && argv[|argv| - 1] == outputFile
            && ReadCommandLine(argv).Some?
            && var inv := ReadCommandLine(argv).value;
            && |inv.inputs| == 2
            && inv.inputs[0].path == concatFile
            && Opt("-f", Some("concat")) in inv.inputs[0].options
            && inv.inputs[1].path == audioPath
            && |inv.outputs| == 1
            && inv.outputs[0].path == outputFile
            && Opt("-map", Some("0:v:0")) in inv.outputs[0].options
            && Opt("-map", Some("1:a:0")) in inv.outputs[0].options
            && Opt("-vf", Some(videoFilter)) in inv.outputs[0].options
            && Opt("-shortest", None) in inv.outputs[0].options
  {
    EncoderArgvReads(concatFile, audioPath, videoFilter, outputFile);
    var argv := EncoderArgv(concatFile, audioPath, videoFilter, outputFile);
    assert argv[|argv| - 1] == EncodingWords(outputFile)[11];
    var o := OutputOptions(videoFilter);
    assert o[0] == Opt("-map", Some("0:v:0"));
    assert o[1] == Opt("-map", Some("1:a:0"));
    assert o[2] == Opt("-vf", Some(videoFilter));
    assert o[10] == Opt("-shortest", None);
  }
}
