# ffmpegv1 render server, modelled in Dafny

The server takes a still image and an audio clip, runs ffmpeg to turn them into
a 1080×1920 video with a burned-in caption, uploads the video to GoFile, and
answers with the link. The audio arrives either by URL (`POST /render`) or as
an uploaded file (`POST /render-upload`). This project models the pure logic of
`server.js`:

- **Caption escaping** (`Caption`). The title goes through four global
  replacements in the source's order: backslash, colon, quote, newline. The
  model proves that this chain equals a one-character-at-a-time escape. It then
  proves that the caption stays inside drawtext's `text='…'` field, against a
  reader where a backslash protects the next character. ffmpeg's own quoting
  rules are not modelled.
- **The ffmpeg invocation** (`Ffmpeg`). This is the fixed 23-entry argument
  vector, the filter text with the escaped caption between `text='` and `'`,
  and the 120000 ms timeout. A decoder recovers the paths and the displayed
  caption from any vector the builder produces.
- **Step outcomes** (`Steps`). A download fails when the status is 400 or
  more. An upload fails when the status is 400 or more or when `data.status`
  is not `"ok"`. A render fails with `stderr || err.message`. The steps are
  awaited in order, and the first failure stops the run.
- **The two handlers** (`Routes`). Each handler is a function from the
  request, the temporary paths and the world's step outcomes to the effects it
  starts (downloads, the ffmpeg call, the upload, unlinks) and the response it
  sends (400, 500 or 200).
- **JavaScript values** (`Values`). This module covers truthiness, the
  destructuring default, `a || b`, and `e.message || String(e)`.
  `Numerals` renders a status code in decimal for the error messages.

Three behaviours of the code are worth noting, and the model follows the code:

- The code deletes the temporary files only after a successful upload. A
  failed step leaves them on disk.
- The code does not check for a missing `data.data.directLink`. The response
  is then a 200 without `url` (`Routes.MissingLinkStillSucceeds`).
- The code rejects a download whose status is 400 or more, before writing
  anything.

## Model

| member | source | states |
|---|---|---|
| `Caption.EscapeIsCharwise` | server.js:33-37 | The chained replacements escape each character independently: `\` becomes `\\`, `:` becomes `\:`, `'` becomes `\'`, newline becomes a space, and every other character is kept. A backslash added by an earlier pass is never rewritten by a later pass. |
| `Caption.EscapeNoNewline` | server.js:37 | No newline character survives in the escaped caption. |
| `Caption.EscapeLength` | server.js:33-37 | The escaped length is the title length plus the number of backslashes, colons and quotes in the title. Newlines keep their length. |
| `Caption.EscapeWellEscaped` | server.js:33-36 | The escaped caption is a sequence of plain characters and backslash pairs. Every `\`, `:` and `'` in it is the second half of such a pair. |
| `Caption.UnescapeEscape` | server.js:33-37 | A left-to-right unescape, which maps `\c` to `c`, applied to the escaped caption gives back the title with newlines turned into spaces. |
| `Caption.EscapeRange` | server.js:33-37 | A string is the escape of some title if and only if it has the well-escaped shape. |
| `Caption.EscapeIdentityOnPlain` | server.js:33-37 | A title without backslash, colon, quote or newline is returned unchanged. |
| `Caption.EscapeIgnoresNewlines` | server.js:37 | Replacing the title's newlines by spaces does not change its escape. |
| `Caption.EscapeNotInjective` | server.js:37 | `"a\nb"` and `"a b"` are different titles with the same escape. |
| `Caption.QuotedFieldEndsAfterCaption` | server.js:44 | Inside `'…'`, a well-escaped caption followed by a quote ends exactly at that quote. No character of the caption closes the field early. |
| `Caption.CaptionSource` | server.js:33 | With the handlers' default applied: a missing title escapes the default caption, a null or empty title gives `""`, and a non-empty title gives its own escape. |
| `Caption.DefaultTitleIsPlain` | server.js:78 | The default caption `Notícia do Dia` passes through the escaper unchanged. |
| `Ffmpeg.Args` | server.js:39-48 | The vector has 23 entries and starts with `-y`. The image path follows `-loop 1 -i`, the audio path follows the second `-i`, and the filter follows `-vf`. The output path is last, preceded by `-shortest`. |
| `Ffmpeg.RenderCallMeaning` | server.js:31-51 | The call runs `ffmpeg` with a 120000 ms timeout. Its arguments decode to the given image, audio and output paths and to the caption `title \|\| ""` as displayed, with newlines shown as spaces. |
| `Ffmpeg.ArgsShapeFixed` | server.js:39-48 | Two vectors agree on every slot except the image, audio, filter and output slots. The caption can appear only in the filter slot. |
| `Ffmpeg.CaptionFieldOfFilter` | server.js:44 | A reader of the filter text in which a backslash protects the next character finds exactly the escaped caption between `text='` and the closing quote. The rest of the filter follows unchanged. |
| `Ffmpeg.DecodeArgsRoundTrip` | server.js:39-48 | Decoding the built vector gives back the image path, the audio path, the output path and the title as displayed (newlines as spaces). |
| `Ffmpeg.UnescapedQuoteBreaksOut` | server.js:32 | Left unescaped, the title `a'b` would close the text field after `a`, so it would not decode as itself. |
| `Numerals.DecimalRoundTrip` | server.js:19 | The decimal status in an error message parses back to the status. |
| `Numerals.DecimalInjective` | server.js:67 | Distinct statuses render to distinct numerals, so the failure messages tell statuses apart. |
| `Steps.FetchFailure` | server.js:17-26 | A download fails with `download failed (<status>) for <url>` exactly when the status is 400 or more. Otherwise it fails only with a write error. A request exception propagates unchanged. |
| `Steps.RenderFailure` | server.js:50-55 | ffmpeg fails exactly when `execFile` reports an error. The message is the stderr when that is non-empty, and the error's own message otherwise. |
| `Steps.UploadFailure` | server.js:66-69 | An upload fails exactly when the status is 400 or more or `data.status` is not `"ok"`. The message is `gofile upload failed (<status>)`. |
| `Steps.RunSteps` | server.js:85-89 | The steps are awaited in order. The run succeeds only if every step succeeds. Otherwise it stops at the first failing step, with that step's error, and no later step is started. |
| `Routes.Finish` | server.js:89-98 | A 200 answer means every step succeeded. Its trace is the steps followed by the unlinks of the three paths, and its `url` is the upload's link. A 500 answer stops at the first failure, carries `message \|\| String(e)` and unlinks nothing. |
| `Routes.RenderRoute` | server.js:76-100 | `/render` answers 400 exactly when `audioUrl` or `imageUrl` is falsy, and then starts nothing. It answers 200 exactly when the audio download, image download, render and upload all succeed, with that exact trace. Otherwise it answers 500 as `Finish` describes. |
| `Routes.UploadRoute` | server.js:106-129 | `/render-upload` answers 400 exactly when there is no uploaded file or `imageUrl` is falsy. Otherwise it runs the image download, render and upload, using the uploaded file as the audio. It answers 200 or 500 as `Finish` describes. |
| `Routes.RenderRouteCaption` | server.js:78-87 | Any ffmpeg call `/render` starts decodes to the request's temporary paths and its caption as displayed. The caption is the default when `title` is missing. |
| `Routes.AudioDownloadFailureStopsRender` | server.js:85-98 | A rejected audio download ends `/render` with a 500 naming the status and URL. The image is not fetched and nothing is rendered, uploaded or unlinked. |
| `Routes.MissingLinkStillSucceeds` | server.js:69 | A successful upload that has no `directLink` still produces a 200, with no `url`. |
| `Values.MadeErrorTextNonEmpty` | server.js:98 | An error the server raises itself is reported with its message, or with `"Error"` when the message is empty. The reported text is never empty. |

## Left out

- Express routing, JSON parsing and its 20 MB limit, and multer's multipart handling. These are framework internals. The parsed body and the uploaded file's path are inputs to the handlers.
- `GET /` (`{ status: "online" }`), the port setting and the startup log. None of them is part of the render flow.
- The axios requests, the write-stream pipe and the GoFile multipart POST. These are network I/O. Each one is an outcome value supplied by `Routes.World`; only the status predicates applied to it are modelled.
- Running ffmpeg and encoding the video. This is an external binary. The timeout is modelled as a number in the invocation. A run that exceeds it is one of the failures `RenderFailed` stands for.
- The effects of `fs.unlink` and its ignored errors. This is filesystem I/O. Cleanup appears only as `Unlinking` events in the trace.
- Temporary file names built from `Date.now()`. They depend on the clock, so the three paths are a parameter (`Routes.TempPaths`).
- Whether the escaping is right under ffmpeg's own filtergraph quoting rules. That depends on ffmpeg's parser. The model proves only the string transform, against a reader where a backslash protects the next character.
- Request fields that are JSON numbers, booleans or objects. A field is modelled as missing, `null` or a string (`Values.Field`).
- Steps that never finish. Each download, render and upload is assumed to finish with an outcome. The axios calls set no timeout, and `pipe` does not pass a read error on to the write stream. So a stalled or broken peer can leave a handler waiting forever, with no response and no cleanup, and the model does not represent that.
- UTF-16 code units. A title is a sequence of Unicode scalar values, while a JavaScript string is a sequence of UTF-16 code units, so a lone surrogate such as a JSON `\ud800` cannot be represented. The escaper and `Caption.EscapeLength` are unaffected, because the four characters it rewrites are all ASCII.
- Concurrency between requests. Each handler is modelled as one request in isolation.
