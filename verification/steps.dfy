/** The external steps a handler runs (download, ffmpeg, GoFile upload), their
    outcomes as the world reports them, the source's success predicates, and
    the short-circuiting sequence that stops at the first failure. */
module Steps {
  import opened Values
  import opened Numerals
  import Ffmpeg

  /** What `downloadToFile` observes: an HTTP response (and, when its body is
      written to disk, possibly a write-stream error), or an exception from the
      request itself. */
  datatype FetchOutcome =
    | Received(status: nat, writeError: Option<Error>)
    | FetchThrew(error: Error)

  /** What `execFile` reports: a clean exit, or an error (non-zero exit,
      timeout, spawn failure) with the captured stderr. */
  datatype RenderOutcome =
    | Exited
    | RenderFailed(stderr: string, error: Error)

  /** What the GoFile POST observes: the HTTP status, `data.status` and
      `data.data.directLink` when present, or an exception. */
  datatype UploadOutcome =
    | Posted(status: nat, bodyStatus: Option<string>, directLink: Option<string>)
    | UploadThrew(error: Error)

  /** `downloadToFile` rejects the response exactly when the status is 400 or more. */
  predicate DownloadRejects(status: nat) {
    status >= 400
  }

  /** `uploadToGoFile` rejects exactly when the status is 400 or more or
      `data.status` is anything but the string "ok". */
  predicate UploadRejects(status: nat, bodyStatus: Option<string>) {
    status >= 400 || bodyStatus != Some("ok")
  }

  function DownloadMessage(status: nat, url: string): string {
    "download failed (" + Decimal(status) + ") for " + url
  }

  function UploadMessage(status: nat): string {
    "gofile upload failed (" + Decimal(status) + ")"
  }

  /** The error a download step ends with, if any. */
  function FetchFailure(url: string, o: FetchOutcome): (e: Option<Error>)
    ensures o.Received? && DownloadRejects(o.status) ==> e == Some(MakeError(DownloadMessage(o.status, url)))
    ensures o.Received? && !DownloadRejects(o.status) ==> e == o.writeError
    ensures o.FetchThrew? ==> e == Some(o.error)
  {
    match o
    case Received(status, writeError) =>
      if DownloadRejects(status) then Some(MakeError(DownloadMessage(status, url))) else writeError
    case FetchThrew(err) => Some(err)
  }

  /** The error the render step ends with, if any: `new Error(stderr || err.message)`. */
  function RenderFailure(o: RenderOutcome): (e: Option<Error>)
    ensures o.Exited? <==> e.None?
    ensures o.RenderFailed? && o.stderr != "" ==> e == Some(MakeError(o.stderr))
    ensures o.RenderFailed? && o.stderr == "" ==> e == Some(MakeError(o.error.message))
  {
    match o
    case Exited => None
    case RenderFailed(stderr, err) => Some(MakeError(OrElse(Str(stderr), err.message)))
  }

  /** The error the upload step ends with, if any. */
  function UploadFailure(o: UploadOutcome): (e: Option<Error>)
    ensures o.Posted? ==> (e.None? <==> !UploadRejects(o.status, o.bodyStatus))
    ensures o.Posted? && e.Some? ==> e.value == MakeError(UploadMessage(o.status))
    ensures o.UploadThrew? ==> e == Some(o.error)
  {
    match o
    case Posted(status, bodyStatus, _) =>
      if UploadRejects(status, bodyStatus) then Some(MakeError(UploadMessage(status))) else None
    case UploadThrew(err) => Some(err)
  }

  /** `up.data?.data?.directLink`, returned without any check. */
  function Link(o: UploadOutcome): Option<string> {
    if o.Posted? then o.directLink else None
  }

  /** One awaited step of a handler together with the outcome the world gives it. */
  datatype Step =
    | Download(url: string, path: string, fetched: FetchOutcome)
    | Render(call: Ffmpeg.Invocation, rendered: RenderOutcome)
    | Upload(path: string, posted: UploadOutcome)

  /** Observable effects, in the order they are started. */
  datatype Event =
    | Downloading(url: string, path: string)
    | Encoding(call: Ffmpeg.Invocation)
    | Uploading(path: string)
    | Unlinking(path: string)

  function Failure(s: Step): Option<Error> {
    match s
    case Download(url, _, o) => FetchFailure(url, o)
    case Render(_, o) => RenderFailure(o)
    case Upload(_, o) => UploadFailure(o)
  }

  function Attempt(s: Step): Event {
    match s
    case Download(url, path, _) => Downloading(url, path)
    case Render(call, _) => Encoding(call)
    case Upload(path, _) => Uploading(path)
  }

  function Attempts(steps: seq<Step>): (evs: seq<Event>)
    ensures |evs| == |steps|
    ensures forall k :: 0 <= k < |steps| ==> evs[k] == Attempt(steps[k])
  {
    if |steps| == 0 then [] else [Attempt(steps[0])] + Attempts(steps[1..])
  }

  predicate Succeeds(s: Step) {
    Failure(s).None?
  }

  datatype Run = Run(trace: seq<Event>, failure: Option<Error>)

  /** Awaits the steps in order; the first failure ends the run with its error,
      and the steps after it are never started. */
  function RunSteps(steps: seq<Step>): (r: Run)
    ensures r.failure.None? <==> forall k :: 0 <= k < |steps| ==> Succeeds(steps[k])
    ensures r.failure.None? ==> r.trace == Attempts(steps)
    ensures r.failure.Some? ==>
      && 1 <= |r.trace| <= |steps|
      && r.trace == Attempts(steps[..|r.trace|])
      && Failure(steps[|r.trace| - 1]) == r.failure
      && forall k :: 0 <= k < |r.trace| - 1 ==> Succeeds(steps[k])
  {
    if |steps| == 0 then Run([], None)
    else match Failure(steps[0])
      case Some(e) => Run([Attempt(steps[0])], Some(e))
      case None =>
        var rest := RunSteps(steps[1..]);
        Run([Attempt(steps[0])] + rest.trace, rest.failure)
  }
}
