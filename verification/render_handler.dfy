/** The pure decisions of the `/render` handler: reject a request missing its uploads,
    otherwise probe the audio, write the concat manifest and hand the encoder its command.
    Probing, the division of the audio duration by the image count, file writes and the
    encoder run are effects; the handler's result lists the effects it asks for in order,
    and the probe's outcome is a parameter. */
module RenderHandler {
  import opened Wrappers
  import opened ConcatManifest
  import opened ConcatReader
  import opened FfmpegCommand

  /** The parts of a request the handler reads. The upload middleware parses only
      multipart bodies; any other request reaches the handler with no body object at all
      (`NoBody`). A multipart request carries the `orientation` text field and the
      temporary paths of the files uploaded as `audio` and `images`; a field that was not
      sent is `None`. */
  datatype Request =
    | NoBody
    | Multipart(orientation: Option<string>, audio: Option<seq<string>>, images: Option<seq<string>>)

  /** An effect the handler asks for. */
  datatype Step =
    | ProbeAudio(audioPath: string)
    | WriteConcatFile(file: string, content: string)
    | RunEncoder(argv: seq<string>)

  /** The handler's answer: 400, 500 with the error text, or no answer yet because the
      encoder is running and the reply depends on how it ends. */
  datatype Reply = BadRequest(error: string) | ServerError(error: string) | AwaitEncoder

  datatype Outcome = Outcome(steps: seq<Step>, reply: Reply)

  const MissingUploadsError: string := "audio and images are required"

  /** The message of the TypeError thrown by `req.body.orientation` when there is no body
      object. */
  const NoBodyError: string := "Cannot read properties of undefined (reading 'orientation')"

  /** The message of the TypeError thrown by `req.files.audio[0].path` on an empty list. */
  const NoAudioError: string := "Cannot read properties of undefined (reading 'path')"

  /** The message of the TypeError thrown by `images[images.length - 1].replace` on an
      empty list. */
  const NoImagesError: string := "Cannot read properties of undefined (reading 'replace')"

  /** Whether the request carries both upload fields (JavaScript truthiness: an empty
      list is present). A request without a multipart body carries neither. */
  predicate HasUploads(req: Request)
  {
    req.Multipart? && req.audio.Some? && req.images.Some?
  }

  /** Whether the handler gets as far as the encoder: both uploads present, at least one
      audio file and one image, and the probe succeeded. */
  predicate ReachesEncoder(req: Request, timing: Result<string, string>)
  {
    HasUploads(req) && |req.audio.value| > 0 && |req.images.value| > 0 && timing.Success?
  }

  /** The handler up to the encoder run. `timing` is the outcome of probing the audio and
      dividing its duration by the number of images: the printed per-image duration, or
      the probe's error message. `concatFile` and `outputFile` are the temporary paths the
      handler names from the clock. */
  function Handle(req: Request, timing: Result<string, string>, concatFile: string, outputFile: string): (out: Outcome)
    ensures req.NoBody? ==> out == Outcome([], ServerError(NoBodyError))
    ensures out.reply.BadRequest? <==> req.Multipart? && !HasUploads(req)
    ensures out.reply.BadRequest? ==> out.steps == [] && out.reply.error == MissingUploadsError
    ensures out.reply.AwaitEncoder? <==> ReachesEncoder(req, timing)
    ensures HasUploads(req) && |req.audio.value| > 0 ==>
              |out.steps| >= 1 && out.steps[0] == ProbeAudio(req.audio.value[0])
    ensures HasUploads(req) && |req.audio.value| > 0 && timing.Failure? ==>
              out.steps == [ProbeAudio(req.audio.value[0])] && out.reply == ServerError(timing.error)
    ensures (exists k :: 0 <= k < |out.steps| && out.steps[k].RunEncoder?) <==> ReachesEncoder(req, timing)
  {
    if req.NoBody? then
      Outcome([], ServerError(NoBodyError))
    else if !HasUploads(req) then
      Outcome([], BadRequest(MissingUploadsError))
    else if |req.audio.value| == 0 then
      Outcome([], ServerError(NoAudioError))
    else
      var audioPath := req.audio.value[0];
      var imagePaths := req.images.value;
      var probe := [ProbeAudio(audioPath)];
      match timing
      case Failure(message) =>
        Outcome(probe, ServerError(message))
      case Success(duration) =>
        if |imagePaths| == 0 then
          Outcome(probe, ServerError(NoImagesError))
        else
          var content := ManifestText(imagePaths, duration);
          var videoFilter := VideoFilter(EffectiveOrientation(req.orientation));
          var argv := EncoderArgv(concatFile, audioPath, videoFilter, outputFile);
          var out := Outcome(probe + [WriteConcatFile(concatFile, content), RunEncoder(argv)], AwaitEncoder);
          assert out.steps[2].RunEncoder?;
          out
  }

  /** As written, a request without a multipart body never gets the 400: reading
      `req.body.orientation` throws first, and the handler answers 500. */
  lemma BodylessRequestNotRejected(timing: Result<string, string>, concatFile: string, outputFile: string)
    ensures var out := Handle(NoBody, timing, concatFile, outputFile);
            && !HasUploads(NoBody)
            && !out.reply.BadRequest?
            && out.reply == ServerError(NoBodyError)
  {
  }

  /** The handler as evidently intended (reading the field as `req.body?.orientation`): a
      request without a multipart body lacks its uploads and gets the 400 like any other,
      and a multipart request is handled exactly as written. */
  function HandleGuarded(req: Request, timing: Result<string, string>, concatFile: string, outputFile: string): (out: Outcome)
    ensures out.reply.BadRequest? <==> !HasUploads(req)
    ensures out.reply.BadRequest? ==> out.steps == [] && out.reply.error == MissingUploadsError
    ensures out.reply.AwaitEncoder? <==> ReachesEncoder(req, timing)
    ensures req.Multipart? ==> out == Handle(req, timing, concatFile, outputFile)
  {
    if req.NoBody? then
      Outcome([], BadRequest(MissingUploadsError))
    else
      Handle(req, timing, concatFile, outputFile)
  }

  /** When the encoder runs, it runs last, after the audio was probed and the manifest of
      the uploaded images was written to `concatFile`; the encoder reads that file as
      input 0 and the probed audio as input 1, with the filter the orientation selects. */
  lemma EncoderFollowsManifest(req: Request, timing: Result<string, string>, concatFile: string, outputFile: string)
    requires ReachesEncoder(req, timing)
    requires !IsOptionWord(outputFile)
    ensures var out := Handle(req, timing, concatFile, outputFile);
            && |out.steps| == 3
            && out.steps[0] == ProbeAudio(req.audio.value[0])
            && out.steps[1] == WriteConcatFile(concatFile, ManifestText(req.images.value, timing.value))
            && out.steps[2].RunEncoder?
            && ReadCommandLine(out.steps[2].argv)
               == Some(EncoderInvocation(concatFile, req.audio.value[0],
                                         VideoFilter(EffectiveOrientation(req.orientation)), outputFile))
  {
    var audioPath := req.audio.value[0];
    var videoFilter := VideoFilter(EffectiveOrientation(req.orientation));
    EncoderArgvReads(concatFile, audioPath, videoFilter, outputFile);
  }

  /** The manifest the handler writes reads back as the uploaded images, in upload order,
      each for the per-image duration, followed by the last image without a duration. */
  lemma WrittenManifestReadsBack(req: Request, timing: Result<string, string>, concatFile: string, outputFile: string)
    requires ReachesEncoder(req, timing)
    requires forall i :: 0 <= i < |req.images.value| ==>
               '\n' !in req.images.value[i] && '\'' !in req.images.value[i]
    requires NumberToken(timing.value)
    ensures var out := Handle(req, timing, concatFile, outputFile);
            && out.steps[1].WriteConcatFile?
            && ReadManifest(out.steps[1].content) == Some(Playlist(req.images.value, timing.value))
  {
    ManifestReadsBack(req.images.value, timing.value);
  }
}
