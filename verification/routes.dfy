/** The two POST handlers, `/render` (audio and image by URL) and
    `/render-upload` (audio as an uploaded file, image by URL), as functions
    from the request and the world's step outcomes to the effects they start
    and the response they send. */
module Routes {
  import opened Values
  import opened Caption
  import opened Steps
  import Ffmpeg

  const RenderMissingMessage: string := "audioUrl e imageUrl são obrigatórios"
  const UploadMissingMessage: string := "audio (file) e imageUrl são obrigatórios"

  /** JSON body of `/render`. */
  datatype JsonBody = JsonBody(audioUrl: Field, imageUrl: Field, title: Field)

  /** Text fields of the multipart body of `/render-upload`. */
  datatype FormBody = FormBody(imageUrl: Field, title: Field)

  /** The file multer stored for the `audio` field. */
  datatype UploadedFile = UploadedFile(path: string)

  /** The timestamp-named temporary paths of one request, chosen by the caller. */
  datatype TempPaths = TempPaths(audio: string, image: string, out: string)

  /** What the outside world answers to each step of one request. `audio` is
      only consulted by `/render`. */
  datatype World = World(audio: FetchOutcome, image: FetchOutcome, render: RenderOutcome, upload: UploadOutcome)

  datatype Payload = Rendered(url: Option<string>) | Failed(error: string)
  datatype Response = Response(status: nat, payload: Payload)

  /** Effects started, in order, and the response sent. */
  datatype Exchange = Exchange(trace: seq<Event>, response: Response)

  predicate NoCleanup(trace: seq<Event>) {
    forall k :: 0 <= k < |trace| ==> !trace[k].Unlinking?
  }

  function Cleanup(paths: TempPaths): seq<Event> {
    [Unlinking(paths.audio), Unlinking(paths.image), Unlinking(paths.out)]
  }

  /** `req.body || {}` for the JSON route. */
  function JsonFields(body: Option<JsonBody>): JsonBody {
    if body.Some? then body.value else JsonBody(Absent, Absent, Absent)
  }

  /** `req.body || {}` for the multipart route. */
  function FormFields(body: Option<FormBody>): FormBody {
    if body.Some? then body.value else FormBody(Absent, Absent)
  }

  /** Download(s), render, upload: the awaited steps after validation. */
  function Plan(audioUrl: Option<string>, imageUrl: string, call: Ffmpeg.Invocation, paths: TempPaths, w: World): seq<Step> {
    (if audioUrl.Some? then [Download(audioUrl.value, paths.audio, w.audio)] else [])
    + [ Download(imageUrl, paths.image, w.image),
        Render(call, w.render),
        Upload(paths.out, w.upload) ]
  }

  /** The ffmpeg call a handler starts: the caption is the `title` field with
      its default. */
  function CallFor(title: Field, paths: TempPaths): Ffmpeg.Invocation {
    Ffmpeg.RenderCall(paths.image, paths.audio, HandlerTitle(title), paths.out)
  }

  /** The run stopped at its `|trace|`-th step: every earlier step succeeded,
      that one failed, and nothing after it was started. */
  predicate StoppedAt(plan: seq<Step>, trace: seq<Event>) {
    && 1 <= |trace| <= |plan|
    && trace == Attempts(plan[..|trace|])
    && (forall k :: 0 <= k < |trace| - 1 ==> Succeeds(plan[k]))
    && !Succeeds(plan[|trace| - 1])
  }

  lemma AttemptsNoCleanup(steps: seq<Step>)
    ensures NoCleanup(Attempts(steps))
  {
    var evs := Attempts(steps);
    forall k | 0 <= k < |evs|
      ensures !evs[k].Unlinking?
    {
      assert evs[k] == Attempt(steps[k]);
    }
  }

  /** The events of a fully successful plan. */
  lemma PlanAttempts(audioUrl: Option<string>, imageUrl: string, call: Ffmpeg.Invocation, paths: TempPaths, w: World)
    ensures Attempts(Plan(audioUrl, imageUrl, call, paths, w))
        == (if audioUrl.Some? then [Downloading(audioUrl.value, paths.audio)] else [])
           + [Downloading(imageUrl, paths.image), Encoding(call), Uploading(paths.out)]
  {
    var plan := Plan(audioUrl, imageUrl, call, paths, w);
    var evs := Attempts(plan);
    var expected := (if audioUrl.Some? then [Downloading(audioUrl.value, paths.audio)] else [])
           + [Downloading(imageUrl, paths.image), Encoding(call), Uploading(paths.out)];
    assert |evs| == |expected|;
    forall k | 0 <= k < |evs|
      ensures evs[k] == expected[k]
    {
      assert evs[k] == Attempt(plan[k]);
    }
  }

  /** A plan succeeds exactly when each of its downloads, the render and the upload does. */
  lemma PlanSucceeds(audioUrl: Option<string>, imageUrl: string, call: Ffmpeg.Invocation, paths: TempPaths, w: World)
    ensures var plan := Plan(audioUrl, imageUrl, call, paths, w);
      (forall k :: 0 <= k < |plan| ==> Succeeds(plan[k])) <==>
        && (audioUrl.Some? ==> FetchFailure(audioUrl.value, w.audio).None?)
        && FetchFailure(imageUrl, w.image).None?
        && w.render.Exited?
        && UploadFailure(w.upload).None?
  {
    var plan := Plan(audioUrl, imageUrl, call, paths, w);
    var d := if audioUrl.Some? then 1 else 0;
    assert |plan| == d + 3;
    assert Succeeds(plan[d]) <==> FetchFailure(imageUrl, w.image).None?;
    assert Succeeds(plan[d + 1]) <==> w.render.Exited?;
    assert Succeeds(plan[d + 2]) <==> UploadFailure(w.upload).None?;
    if audioUrl.Some? {
      assert Succeeds(plan[0]) <==> FetchFailure(audioUrl.value, w.audio).None?;
    }
    if forall k :: 0 <= k < |plan| ==> Succeeds(plan[k]) {
      assert Succeeds(plan[d]) && Succeeds(plan[d + 1]) && Succeeds(plan[d + 2]);
      assert audioUrl.Some? ==> Succeeds(plan[0]);
    }
  }

  /** The `try`/`catch` around the steps: the first failure becomes a 500
      carrying its message; only a fully successful run unlinks the three
      paths and answers 200 with the upload's link. */
  function Finish(plan: seq<Step>, paths: TempPaths, upload: UploadOutcome): (x: Exchange)
    ensures x.response.status == 200 <==> forall k :: 0 <= k < |plan| ==> Succeeds(plan[k])
    ensures x.response.status == 200 ==>
      x.trace == Attempts(plan) + Cleanup(paths) && x.response.payload == Rendered(Link(upload))
    ensures x.response.status == 500 ==>
      && StoppedAt(plan, x.trace)
      && x.response.payload == Failed(ErrorText(Failure(plan[|x.trace| - 1]).value))
      && NoCleanup(x.trace)
    ensures x.response.status == 200 || x.response.status == 500
  {
    var run := RunSteps(plan);
    if run.failure.Some? then
      AttemptsNoCleanup(plan[..|run.trace|]);
      Exchange(run.trace, Response(500, Failed(ErrorText(run.failure.value))))
    else
      Exchange(run.trace + Cleanup(paths), Response(200, Rendered(Link(upload))))
  }

  /** `/render`. */
  function RenderRoute(body: Option<JsonBody>, paths: TempPaths, w: World): (x: Exchange)
    ensures var b := JsonFields(body);
      x.response.status == 400 <==> !Truthy(b.audioUrl) || !Truthy(b.imageUrl)
    ensures x.response.status == 400 ==> x.trace == [] && x.response.payload == Failed(RenderMissingMessage)
    ensures var b := JsonFields(body);
      x.response.status == 200 <==>
        && Truthy(b.audioUrl) && Truthy(b.imageUrl)
        && FetchFailure(b.audioUrl.s, w.audio).None?
        && FetchFailure(b.imageUrl.s, w.image).None?
        && w.render.Exited?
        && UploadFailure(w.upload).None?
    ensures var b := JsonFields(body);
      x.response.status == 200 ==>
        && x.trace == [ Downloading(b.audioUrl.s, paths.audio),
                        Downloading(b.imageUrl.s, paths.image),
                        Encoding(Ffmpeg.RenderCall(paths.image, paths.audio, HandlerTitle(b.title), paths.out)),
                        Uploading(paths.out),
                        Unlinking(paths.audio), Unlinking(paths.image), Unlinking(paths.out) ]
        && x.response.payload == Rendered(Link(w.upload))
    ensures var b := JsonFields(body);
      x.response.status == 500 ==>
        var plan := Plan(Some(b.audioUrl.s), b.imageUrl.s, CallFor(b.title, paths), paths, w);
        && StoppedAt(plan, x.trace)
        && x.response.payload == Failed(ErrorText(Failure(plan[|x.trace| - 1]).value))
        && NoCleanup(x.trace)
    ensures x.response.status in {200, 400, 500}
  {
    var b := JsonFields(body);
    if !Truthy(b.audioUrl) || !Truthy(b.imageUrl) then
      Exchange([], Response(400, Failed(RenderMissingMessage)))
    else
      var plan := Plan(Some(b.audioUrl.s), b.imageUrl.s, CallFor(b.title, paths), paths, w);
      PlanAttempts(Some(b.audioUrl.s), b.imageUrl.s, CallFor(b.title, paths), paths, w);
      PlanSucceeds(Some(b.audioUrl.s), b.imageUrl.s, CallFor(b.title, paths), paths, w);
      Finish(plan, paths, w.upload)
  }

  /** `/render-upload`: the audio is already on disk at the uploaded file's path. */
  function UploadRoute(body: Option<FormBody>, file: Option<UploadedFile>, imagePath: string, outPath: string, w: World): (x: Exchange)
    ensures var b := FormFields(body);
      x.response.status == 400 <==> file.None? || !Truthy(b.imageUrl)
    ensures x.response.status == 400 ==> x.trace == [] && x.response.payload == Failed(UploadMissingMessage)
    ensures var b := FormFields(body);
      x.response.status == 200 <==>
        && file.Some? && Truthy(b.imageUrl)
        && FetchFailure(b.imageUrl.s, w.image).None?
        && w.render.Exited?
        && UploadFailure(w.upload).None?
    ensures var b := FormFields(body);
      x.response.status == 200 ==>
        && x.trace == [ Downloading(b.imageUrl.s, imagePath),
                        Encoding(Ffmpeg.RenderCall(imagePath, file.value.path, HandlerTitle(b.title), outPath)),
                        Uploading(outPath),
                        Unlinking(file.value.path), Unlinking(imagePath), Unlinking(outPath) ]
        && x.response.payload == Rendered(Link(w.upload))
    ensures var b := FormFields(body);
      x.response.status == 500 ==>
        var plan := Plan(None, b.imageUrl.s, CallFor(b.title, TempPaths(file.value.path, imagePath, outPath)), TempPaths(file.value.path, imagePath, outPath), w);
        && StoppedAt(plan, x.trace)
        && x.response.payload == Failed(ErrorText(Failure(plan[|x.trace| - 1]).value))
        && NoCleanup(x.trace)
    ensures x.response.status in {200, 400, 500}
  {
    var b := FormFields(body);
    if file.None? || !Truthy(b.imageUrl) then
      Exchange([], Response(400, Failed(UploadMissingMessage)))
    else
      var paths := TempPaths(file.value.path, imagePath, outPath);
      var plan := Plan(None, b.imageUrl.s, CallFor(b.title, paths), paths, w);
      PlanAttempts(None, b.imageUrl.s, CallFor(b.title, paths), paths, w);
      PlanSucceeds(None, b.imageUrl.s, CallFor(b.title, paths), paths, w);
      Finish(plan, paths, w.upload)
  }

  /** Whatever ffmpeg call `/render` starts decodes to the request's paths and
      its caption as displayed: the default when `title` is missing, the empty
      caption when it is null or empty, newlines shown as spaces. */
  lemma RenderRouteCaption(body: Option<JsonBody>, paths: TempPaths, w: World, k: nat)
    requires k < |RenderRoute(body, paths, w).trace|
    requires RenderRoute(body, paths, w).trace[k].Encoding?
    ensures Ffmpeg.DecodeArgs(RenderRoute(body, paths, w).trace[k].call.args)
         == Some(Ffmpeg.Inputs(paths.image, paths.audio,
                               NewlinesToSpaces(OrElse(HandlerTitle(JsonFields(body).title), "")),
                               paths.out))
  {
    var b := JsonFields(body);
    var x := RenderRoute(body, paths, w);
    var plan := Plan(Some(b.audioUrl.s), b.imageUrl.s, CallFor(b.title, paths), paths, w);
    var caption := OrElse(HandlerTitle(b.title), "");
    assert x.trace[k] == Attempt(plan[k]);
    assert k == 2;
    Ffmpeg.DecodeArgsRoundTrip(paths.image, paths.audio, caption, paths.out);
  }

  /** A rejected audio download ends `/render` at once: the image is never
      fetched, ffmpeg never runs, and the 500 names the status and the URL. */
  lemma AudioDownloadFailureStopsRender(body: Option<JsonBody>, paths: TempPaths, w: World, status: nat)
    requires Truthy(JsonFields(body).audioUrl) && Truthy(JsonFields(body).imageUrl)
    requires w.audio.Received? && w.audio.status == status && DownloadRejects(status)
    ensures var url := JsonFields(body).audioUrl.s;
      RenderRoute(body, paths, w)
        == Exchange([Downloading(url, paths.audio)],
                    Response(500, Failed(DownloadMessage(status, url))))
  {
  }

  /** The upload's link is not checked: a successful upload without
      `data.data.directLink` still answers 200, with no `url`. */
  lemma MissingLinkStillSucceeds(body: Option<FormBody>, file: Option<UploadedFile>, imagePath: string, outPath: string, w: World)
    requires file.Some? && Truthy(FormFields(body).imageUrl)
    requires FetchFailure(FormFields(body).imageUrl.s, w.image).None? && w.render.Exited?
    requires w.upload.Posted? && w.upload.status < 400 && w.upload.bodyStatus == Some("ok") && w.upload.directLink.None?
    ensures UploadRoute(body, file, imagePath, outPath, w).response == Response(200, Rendered(None))
  {
  }
}
