# Render worker: concat manifest and encoder command, in Dafny

The render worker is one Express script (`index.js`). It receives an audio track and a
list of images, probes the audio length with `ffprobe`, and writes a playlist for
FFmpeg's concat demuxer. It then runs `ffmpeg` to make a video that shows the images in
turn while the audio plays. This project models the pure parts of that script:

- **Path normalisation** (`Paths`): `img.replace(/\\/g, '/')` turns every backslash into
  a forward slash and changes nothing else.
- **The concat manifest** (`ConcatManifest`): `createConcatFile` emits, per image in input
  order, a `file '<path>'` line and a `duration <d>` line. It then repeats the last image
  once with no duration line, because the concat demuxer otherwise ignores the last
  duration. The manifest is given as a list of lines and as the newline-terminated text the
  source accumulates; `BuildConcatContent` mirrors that accumulation loop.
- **A manifest reader** (`Lines`, `ConcatReader`): it splits the text into lines, recognises
  the directives, and attaches each duration to the file line before it. It is the
  partner of the writer. Reading back a written manifest gives one timed entry per image
  and then the untimed repeat of the last image.
- **The encoder command** (`FfmpegCommand`): orientation defaulting and the choice of the
  scale/crop filter, and the fixed argument layout of the `ffmpeg` command. There is also
  a reader of ffmpeg command lines: global options, inputs with their options, and outputs
  with their options. It shows what the flat word list means: input 0 is the manifest
  (concat demuxer), input 1 is the audio, and so on.
- **The request handler's decisions** (`RenderHandler`): a request without a multipart
  body fails with a 500 when the handler reads `req.body.orientation`. A multipart request
  missing `audio` or `images` gets a 400 before anything is probed or written. Otherwise
  the handler probes the audio, writes the manifest and hands the encoder its command, in
  that order. The probe outcome and the temporary file names are parameters.

The duration is an opaque token. It stands for the text JavaScript prints for the
per-image duration number (`audioDuration / imagePaths.length`). Where a read-back theorem
needs it, `NumberToken` limits the token to the characters that conversion can produce.

Other versions of the script add an API-key gate, `narration`/`background` fields with
audio mixing, and a 1-second floor on the per-image duration. This version of `index.js`
has none of them: it takes `audio` and `images`, checks no key, and does not floor the
duration. The model follows this version.

## Model

| member | source | states |
|---|---|---|
| `Paths.NormalizeSeparators` | index.js:36 | every `\` becomes `/`, every other character is unchanged, the length is kept, and the result holds no `\` |
| `Paths.NormalizeIdempotent` | index.js:36 | normalising twice gives the same path as normalising once |
| `Paths.NormalizeFixedPoint` | index.js:36 | a path is left unchanged exactly when it holds no backslash |
| `Paths.NormalizeKeeps` | index.js:41 | normalisation introduces no character other than `/` (so it adds no newline and no quote) |
| `Lines.SplitUnlines` | index.js:37-42 | splitting the newline-terminated text gives back the emitted lines, when no line holds a newline of its own |
| `ConcatManifest.PairLines` | index.js:34-39 | the loop emits 2N lines: line 2i is `file '<normalised image i>'` and every odd line is `duration <d>` |
| `ConcatManifest.ManifestLines` | index.js:32-42 | the manifest has 2N+1 lines: the N file/duration pairs in input order, then `file '<normalised last image>'`, which repeats line 2N-2; it is defined only for N >= 1 |
| `ConcatManifest.ManifestDurations` | index.js:38-42 | exactly N of the 2N+1 lines are duration lines, and each carries the duration passed in |
| `ConcatManifest.ManifestText` | index.js:33-42 | the manifest text is its lines, each ending in a newline: it splits back into exactly those lines when no image path and not the duration holds a newline |
| `ConcatManifest.BuildConcatContent` | index.js:33-42 | the text accumulated by the loop and the final append equals the manifest's lines, each terminated by a newline |
| `ConcatManifest.ManifestHasNoBackslash` | index.js:36-42 | the manifest text holds no backslash, whatever the image paths, provided the duration text holds none |
| `ConcatReader.ParseFileLine` | index.js:37 | a `file` line reads back as its path when the path holds no quote |
| `ConcatReader.ParseDurationLine` | index.js:38 | a `duration` line reads back as its duration token |
| `ConcatReader.QuotedPathUnreadable` | index.js:37 | quotes in a path are not escaped, so a path with a quote gives a `file` line the reader rejects |
| `ConcatReader.ParseLines` | index.js:37-42 | a line list parses exactly when every line parses, and parsing keeps position and length |
| `ConcatReader.ManifestReadsBack` | index.js:32-43 | the written manifest reads as: each normalised image in input order with the given duration, then the last image again with no duration (for paths without newline or quote) |
| `FfmpegCommand.EffectiveOrientation` | index.js:59 | a missing or empty orientation field becomes `landscape`; any other text is kept |
| `FfmpegCommand.VideoFilter` | index.js:81-84 | the filter is the 1080:1920 chain exactly when the orientation is `portrait`, and the 1920:1080 chain exactly otherwise |
| `FfmpegCommand.FiltersDiffer` | index.js:83-84 | the two scale/crop chains are different strings |
| `FfmpegCommand.FilterForField` | index.js:59-84 | from the request field: portrait chain exactly when the field is `portrait`; missing, empty or other text gives landscape |
| `FfmpegCommand.EncoderArgv` | index.js:87 | the command as the 32 words the shell splits it into: `ffmpeg` first, `-i` and the manifest at words 6-7, `-i` and the audio at words 8-9, the filter at word 15, `-shortest` and then the output path last |
| `FfmpegCommand.EncoderArgvReads` | index.js:87 | the argument list reads as one global `-y`; input 0 the manifest with `-f concat -safe 0`; input 1 the audio; one output with the map, filter, codec options and `-shortest` |
| `FfmpegCommand.EncoderLayout` | index.js:87 | manifest is input 0 through the concat demuxer, audio is input 1, `-map 0:v:0` and `-map 1:a:0`, the chosen `-vf`, `-shortest`, and the output path is the last word |
| `RenderHandler.Handle` | index.js:53-87 | a request without a multipart body answers 500 with the TypeError from reading `orientation`, and nothing else happens; for a multipart request, 400 exactly when `audio` or `images` is missing, with no probe and no manifest; the probe is the first effect when both fields are present and the audio list is non-empty; a probe failure answers 500 with its message and nothing more; the encoder runs exactly when both uploads are non-empty and the probe succeeded |
| `RenderHandler.BodylessRequestNotRejected` | index.js:59-63 | a request without a multipart body lacks its uploads, yet it never gets the 400: it answers 500 |
| `RenderHandler.HandleGuarded` | index.js:59-63 | the handler with the body read guarded: 400 exactly when the uploads are missing, whether or not there is a body; the encoder runs under the same conditions as `Handle`; a multipart request is handled exactly as `Handle` does |
| `RenderHandler.EncoderFollowsManifest` | index.js:71-87 | when the encoder runs, the effects are probe, manifest write, encoder run, in that order; the encoder reads the written manifest as input 0 and the probed audio as input 1 |
| `RenderHandler.WrittenManifestReadsBack` | index.js:72-79 | the manifest the handler writes reads back as the uploaded images in upload order, each with the per-image duration, then the last one untimed |

## Left out

- `getAudioDuration` (index.js:14-26) runs `ffprobe` as a subprocess and parses its output with `parseFloat`. Its outcome is the `timing` parameter of `Handle`: the printed per-image duration, or the error message.
- The per-image duration `audioDuration / imagePaths.length` (index.js:72) is floating-point division. The duration is an opaque token.
- Running `ffmpeg` (index.js:91-95) and mapping its failure to a 500 with `stderr` as details are not modelled: they are an external process. The model stops when the command is handed over (`AwaitEncoder`).
- Response headers, streaming the output file, stream errors and temporary file cleanup (index.js:100-125) are HTTP and filesystem I/O and are not modelled.
- `fs.writeFileSync` (index.js:44) is modelled as the `WriteConcatFile` effect only. Write failures are not modelled.
- The temporary file names built from `Date.now()` (index.js:76-77) are parameters.
- The Express and multer setup, the `/health` route and `app.listen` (index.js:8-9, 51-57, 134-140) are framework wiring. This includes multer's limit of 20 images and one audio file, which is enforced before the handler runs.
- Logging is not modelled.
- The shell command is one string with double-quoted paths. The model takes its words as the shell would split them. A path holding `"` or another shell metacharacter would split or expand differently; quoting is not modelled.
- An orientation field sent more than once (multer gives an array) is not modelled. The field is a single optional text.
- `Handle` models four throws caught by the outer `try` (index.js:127-130): the TypeError from reading `orientation` when there is no body, the rejected `ffprobe` promise (index.js:19, 71), which answers 500 with its message, and the TypeErrors from an empty `audio` list and from an empty `images` list. Whether a request has a multipart body is an input: the upload middleware, which sets `req.body` only for multipart requests, is not part of this model. Other throws, such as a failed manifest write, are not modelled.
- `ConcatReader.ManifestReadsBack`: proved only for image paths without a newline or a quote, because the source escapes neither. With such a path the text does not read back as written. `QuotedPathUnreadable` shows this for quotes.
- `FfmpegCommand.EncoderArgvReads`: proved only for an output path that does not start with `-`. The model assumes this: the source passes a path under `os.tmpdir()`, which is normally absolute.
- `FfmpegCommand.EncoderLayout`: needs the same condition on the output path as `EncoderArgvReads`.
- `RenderHandler.EncoderFollowsManifest`: needs the same condition on the output path as `EncoderArgvReads`.
- `RenderHandler.WrittenManifestReadsBack`: needs the same conditions on paths and duration as `ManifestReadsBack`.
- The reader of ffmpeg command lines knows only this command's options. `-y` and `-shortest` take no value, and every other word starting with `-` takes exactly one.

## Findings

| source | as written | input that shows it | evidently intended | confidence | as-written member | corrected member |
|---|---|---|---|---|---|---|
| index.js:59-63 | `req.body.orientation` is read before the upload check, and the upload middleware leaves `req.body` undefined for a request that is not multipart | `POST /render` with a JSON body or no body: 500 "Cannot read properties of undefined (reading 'orientation')" | the 400 "audio and images are required", as for any request without uploads | medium, not executed | `RenderHandler.Handle`, `RenderHandler.BodylessRequestNotRejected` | `RenderHandler.HandleGuarded` |
