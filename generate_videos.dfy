/**
 * The video generator: which Airtable records are ready for a video, the
 * image URL taken from a record, the request payload, the video polling
 * loop, the local file name, and the per-scene tally of its main loop.
 */
module GenerateVideos {
  import opened Wrappers
  import opened Text
  import opened Seqs
  import opened Records
  import opened PromptTruncation
  import opened KieTasks

  // ---------------------------------------------------------------------
  // Selecting the scenes
  // ---------------------------------------------------------------------

  /** A record with a non-empty `start_image` and no non-empty `scene_video`. */
  predicate IsReady(record: AirRecord) {
    HasValue(record.fields, StartImageField) && !HasValue(record.fields, SceneVideoField)
  }

  /** The filter loop of `get_scenes_from_airtable`, over the records of the project. */
  method ReadyScenes(records: seq<AirRecord>) returns (scenes: seq<AirRecord>)
    ensures scenes == Filter(records, IsReady)
    ensures forall k :: 0 <= k < |scenes| ==> IsReady(scenes[k])
    ensures forall k :: 0 <= k < |records| && IsReady(records[k]) ==> records[k] in scenes
  {
    scenes := [];
    var i := 0;
    while i < |records|
      invariant 0 <= i <= |records|
      invariant scenes == Filter(records[..i], IsReady)
    {
      var record := records[i];
      FilterStep(records, i, IsReady);
      var hasImage := StartImageField in record.fields && Truthy(record.fields[StartImageField]);
      var hasVideo := SceneVideoField in record.fields && Truthy(record.fields[SceneVideoField]);
      if hasImage && !hasVideo {
        scenes := scenes + [record];
      }
      i := i + 1;
    }
    assert records[..i] == records;
    FilterMembers(records, IsReady);
  }

  datatype ImageUrlError = NoImage | MissingUrl | NotAttachments

  /**
   * `get_image_url_from_record`: the `url` of the first attachment of
   * `start_image`. A missing or empty field is the "no image" error; a
   * first attachment without `url`, or a text where attachments belong,
   * fails on the lookup.
   */
  function GetImageUrl(record: AirRecord): (r: Result<string, ImageUrlError>)
    ensures !HasValue(record.fields, StartImageField) ==> r == Failure(NoImage)
    ensures r.Success? <==>
      HasValue(record.fields, StartImageField) && record.fields[StartImageField].Attachments? &&
      record.fields[StartImageField].items[0].url.Some?
    ensures r.Success? ==> r.value == record.fields[StartImageField].items[0].url.value
  {
    if StartImageField !in record.fields then Failure(NoImage)
    else match record.fields[StartImageField]
      case Str(t) => if t == "" then Failure(NoImage) else Failure(NotAttachments)
      case Attachments(items) =>
        if items == [] then Failure(NoImage)
        else if items[0].url.None? then Failure(MissingUrl)
        else Success(items[0].url.value)
  }

  /** A record the filter keeps never fails for want of an image. */
  lemma ReadySceneHasImage(record: AirRecord)
    requires IsReady(record)
    ensures GetImageUrl(record) != Failure(NoImage)
  {
  }

  // ---------------------------------------------------------------------
  // The request
  // ---------------------------------------------------------------------

  datatype VideoModelConfig = VideoModelConfig(name: string, maxPromptLength: nat, defaultAspectRatio: string, defaultDuration: string)

  const Sora2 := VideoModelConfig("sora-2-image-to-video", 10000, "landscape", "10")

  /** A value of the payload's `input` object. */
  datatype VideoValue = VStr(s: string) | VList(items: seq<string>) | VBool(b: bool)

  const VideoInputKeys: set<string> := {"prompt", "image_urls", "aspect_ratio", "n_frames", "remove_watermark", "upload_method"}

  /** The payload of `create_video_generation_task`: one fixed shape for every request. */
  method BuildVideoPayload(prompt: string, imageUrl: string, modelName: string, config: VideoModelConfig,
                           aspectRatio: string, nFrames: string, removeWatermark: bool)
    returns (model: string, input: map<string, VideoValue>)
    ensures model == modelName
    ensures input.Keys == VideoInputKeys
    ensures input["prompt"] == VStr(Truncated(prompt, config.maxPromptLength))
    ensures config.maxPromptLength >= 3 ==> |input["prompt"].s| <= config.maxPromptLength
    ensures input["image_urls"] == VList([imageUrl])
    ensures input["aspect_ratio"] == VStr(aspectRatio)
    ensures input["n_frames"] == VStr(nFrames)
    ensures input["remove_watermark"] == VBool(removeWatermark)
    ensures input["upload_method"] == VStr("s3")
  {
    var sent := PromptToSend(prompt, config.maxPromptLength);
    model := modelName;
    input := map[
      "prompt" := VStr(sent),
      "image_urls" := VList([imageUrl]),
      "aspect_ratio" := VStr(aspectRatio),
      "n_frames" := VStr(nFrames),
      "remove_watermark" := VBool(removeWatermark),
      "upload_method" := VStr("s3")];
  }

  // ---------------------------------------------------------------------
  // Polling
  // ---------------------------------------------------------------------

  /**
   * `poll_task_status` of the video generator: poll until `success`,
   * `fail` or the timeout, sleeping 5 seconds after a transient error or a
   * result that does not parse, and by the schedule in every other state.
   */
  method PollTaskStatus(respond: nat -> PollResponse, maxWait: nat) returns (outcome: PollOutcome, pollCount: nat, elapsed: nat)
    ensures SameEnd(PollRun(outcome, [], pollCount, elapsed), Run(VideoTask, respond, maxWait, 0, 0))
  {
    elapsed := 0;
    pollCount := 0;
    while elapsed < maxWait
      invariant SameEnd(Run(VideoTask, respond, maxWait, pollCount, elapsed), Run(VideoTask, respond, maxWait, 0, 0))
      decreases maxWait - elapsed
    {
      var response := respond(pollCount);
      pollCount := pollCount + 1;
      var sleep: nat;
      if response.TransportError? || response.status != 200 || response.body.NotJson? {
        sleep := RetryDelay;
      } else if response.body.NotObject? {
        outcome := MalformedResult;
        return;
      } else {
        var data := response.body;
        if data.state == Some("success") {
          var value: JsonValue;
          match data.resultJson {
            case Absent =>
              value := Object([]);
            case Text(None) =>
              value := NonObject;
            case Text(Some(v)) =>
              value := v;
            case Decoded(v) =>
              value := v;
          }
          if data.resultJson == Text(None) {
            sleep := RetryDelay;
          } else {
            outcome := if value.Object? then Completed(value.resultUrls) else MalformedResult;
            return;
          }
        } else if data.state == Some("fail") {
          outcome := Failed(data.failCode.GetOr("N/A"), data.failMsg.GetOr("Unknown error"));
          return;
        } else if elapsed < 60 {
          sleep := 10;
        } else if elapsed < 180 {
          sleep := 15;
        } else {
          sleep := 30;
        }
      }
      elapsed := elapsed + sleep;
    }
    outcome := TimedOut;
  }

  // ---------------------------------------------------------------------
  // The main loop
  // ---------------------------------------------------------------------

  /** `scene_name.replace(' ', '_')[:30]`. */
  function SceneSlug(name: string): (r: string)
    ensures |r| <= 30
    ensures |r| == if |name| < 30 then |name| else 30
    ensures forall k :: 0 <= k < |r| ==> r[k] != ' '
    ensures forall k :: 0 <= k < |r| ==> r[k] == if name[k] == ' ' then '_' else name[k]
  {
    SlicePrefix(ReplaceChar(name, ' ', '_'), 30)
  }

  /** The local file name `scene_{i}_{slug}.mp4` of the `i`-th scene's video. */
  function VideoFilename(i: nat, sceneName: string): string {
    "scene_" + NatToString(i) + "_" + SceneSlug(sceneName) + ".mp4"
  }

  /**
   * What the main loop needs to know about one scene: its record, the
   * reply to the create request, the replies to the status polls, and
   * whether the record update and the download succeed.
   */
  datatype VideoScene = VideoScene(
    record: AirRecord,
    create: CreateReply,
    respond: nat -> PollResponse,
    updateSucceeds: bool,
    downloadSucceeds: bool)

  /** `fields.get('scene', f'Scene {i}')`. */
  function SceneName(scene: VideoScene, i: nat): string {
    TextField(scene.record.fields, SceneField, "Scene " + NatToString(i))
  }

  /** `fields.get('video_prompt', '')`. */
  function VideoPrompt(scene: VideoScene): string {
    TextField(scene.record.fields, VideoPromptField, "")
  }

  datatype SceneResult = Skipped | SceneFailed | Succeeded(videoUrl: string, download: Option<string>)

  /**
   * How the `i`-th scene ends: the image URL is read before the prompt is
   * looked at, an empty prompt skips the scene, and every later error,
   * an empty result list included, is a failure.
   */
  function VideoSceneResult(scene: VideoScene, i: nat, skipDownload: bool): (r: SceneResult)
    ensures GetImageUrl(scene.record).Failure? ==> r == SceneFailed
    ensures r.Skipped? <==> GetImageUrl(scene.record).Success? && VideoPrompt(scene) == ""
    ensures r.Succeeded? <==>
      GetImageUrl(scene.record).Success? && VideoPrompt(scene) != "" &&
      CreateTaskResult(scene.create).Success? &&
      Run(VideoTask, scene.respond, VideoMaxWait, 0, 0).outcome.Completed? &&
      Run(VideoTask, scene.respond, VideoMaxWait, 0, 0).outcome.urls != [] &&
      scene.updateSucceeds && (skipDownload || scene.downloadSucceeds)
    ensures r.Succeeded? ==>
      r.videoUrl == Run(VideoTask, scene.respond, VideoMaxWait, 0, 0).outcome.urls[0] &&
      r.download == if skipDownload then None else Some(VideoFilename(i, SceneName(scene, i)))
  {
    if GetImageUrl(scene.record).Failure? then SceneFailed
    else if VideoPrompt(scene) == "" then Skipped
    else if CreateTaskResult(scene.create).Failure? then SceneFailed
    else
      var outcome := Run(VideoTask, scene.respond, VideoMaxWait, 0, 0).outcome;
      if !outcome.Completed? || outcome.urls == [] || !scene.updateSucceeds then SceneFailed
      else if skipDownload then Succeeded(outcome.urls[0], None)
      else if scene.downloadSucceeds then Succeeded(outcome.urls[0], Some(VideoFilename(i, SceneName(scene, i))))
      else SceneFailed
  }

  /** The body of the loop in `main` for the `i`-th scene. */
  method ProcessScene(scene: VideoScene, i: nat, skipDownload: bool) returns (r: SceneResult)
    ensures r == VideoSceneResult(scene, i, skipDownload)
  {
    var imageUrl := GetImageUrl(scene.record);
    if imageUrl.Failure? {
      return SceneFailed;
    }
    var videoPrompt := VideoPrompt(scene);
    if videoPrompt == "" {
      return Skipped;
    }
    var created := CreateTaskResult(scene.create);
    if created.Failure? {
      return SceneFailed;
    }
    var outcome, _, _ := PollTaskStatus(scene.respond, VideoMaxWait);
    if !outcome.Completed? || outcome.urls == [] {
      return SceneFailed;
    }
    var videoUrl := outcome.urls[0];
    if !scene.updateSucceeds {
      return SceneFailed;
    }
    if skipDownload {
      return Succeeded(videoUrl, None);
    }
    if !scene.downloadSucceeds {
      return SceneFailed;
    }
    r := Succeeded(videoUrl, Some(VideoFilename(i, SceneName(scene, i))));
  }

  /** The results of the scenes in order. */
  function Results(scenes: seq<VideoScene>, skipDownload: bool): (r: seq<SceneResult>)
    ensures |r| == |scenes|
  {
    if scenes == [] then []
    else Results(scenes[..|scenes| - 1], skipDownload) + [VideoSceneResult(scenes[|scenes| - 1], |scenes|, skipDownload)]
  }

  /** The `k`-th result (from 0) is that of the `k`-th scene, numbered `k + 1`. */
  lemma {:induction false} ResultsIndex(scenes: seq<VideoScene>, skipDownload: bool, k: nat)
    requires k < |scenes|
    ensures Results(scenes, skipDownload)[k] == VideoSceneResult(scenes[k], k + 1, skipDownload)
  {
    var init := scenes[..|scenes| - 1];
    assert Results(scenes, skipDownload) ==
      Results(init, skipDownload) + [VideoSceneResult(scenes[|scenes| - 1], |scenes|, skipDownload)];
    if k < |scenes| - 1 {
      ResultsIndex(init, skipDownload, k);
      assert init[k] == scenes[k];
    }
  }

  lemma ResultsStep(scenes: seq<VideoScene>, i: nat, skipDownload: bool)
    requires i < |scenes|
    ensures Results(scenes[..i + 1], skipDownload) ==
      Results(scenes[..i], skipDownload) + [VideoSceneResult(scenes[i], i + 1, skipDownload)]
  {
    assert scenes[..i + 1][..i] == scenes[..i];
  }

  /** The files the loop downloads, in scene order. */
  function Downloads(results: seq<SceneResult>): seq<string> {
    if results == [] then []
    else
      var last := results[|results| - 1];
      Downloads(results[..|results| - 1]) + (if last.Succeeded? && last.download.Some? then [last.download.value] else [])
  }

  lemma DownloadsAppend(results: seq<SceneResult>, r: SceneResult)
    ensures Downloads(results + [r]) == Downloads(results) + (if r.Succeeded? && r.download.Some? then [r.download.value] else [])
  {
    assert (results + [r])[..|results|] == results;
  }

  predicate IsSuccess(r: SceneResult) {
    r.Succeeded?
  }

  predicate IsFailure(r: SceneResult) {
    r.SceneFailed?
  }

  predicate IsNotSuccess(r: SceneResult) {
    !r.Succeeded?
  }

  /** What the `i`-th scene adds to the results, the two counters and the downloads. */
  lemma TallyStep(scenes: seq<VideoScene>, i: nat, skipDownload: bool)
    requires i < |scenes|
    ensures var before := Results(scenes[..i], skipDownload);
      var after := Results(scenes[..i + 1], skipDownload);
      var r := VideoSceneResult(scenes[i], i + 1, skipDownload);
      after == before + [r] &&
      Count(after, IsSuccess) == Count(before, IsSuccess) + (if r.Succeeded? then 1 else 0) &&
      Count(after, IsFailure) == Count(before, IsFailure) + (if r.SceneFailed? then 1 else 0) &&
      Downloads(after) == Downloads(before) + (if r.Succeeded? && r.download.Some? then [r.download.value] else [])
  {
    var before := Results(scenes[..i], skipDownload);
    var r := VideoSceneResult(scenes[i], i + 1, skipDownload);
    ResultsStep(scenes, i, skipDownload);
    CountAppend(before, r, IsSuccess);
    CountAppend(before, r, IsFailure);
    DownloadsAppend(before, r);
  }

  /** Skipped scenes count neither way, so the two counters never exceed the number of scenes. */
  lemma CountersBounded(results: seq<SceneResult>)
    ensures Count(results, IsSuccess) + Count(results, IsFailure) <= |results|
  {
    CountSplit(results, IsSuccess, IsNotSuccess);
    CountMonotone(results, IsFailure, IsNotSuccess);
  }

  /** The counters and the downloads after one more scene's result. */
  method Tally(r: SceneResult, successCount: nat, failCount: nat, downloads: seq<string>)
    returns (successCount': nat, failCount': nat, downloads': seq<string>)
    ensures successCount' == successCount + (if r.Succeeded? then 1 else 0)
    ensures failCount' == failCount + (if r.SceneFailed? then 1 else 0)
    ensures downloads' == downloads + (if r.Succeeded? && r.download.Some? then [r.download.value] else [])
  {
    successCount', failCount', downloads' := successCount, failCount, downloads;
    if r.Succeeded? {
      successCount' := successCount + 1;
      if r.download.Some? {
        downloads' := downloads + [r.download.value];
      }
    } else if r.SceneFailed? {
      failCount' := failCount + 1;
    }
  }

  /**
   * The generation loop of `main`: `success_count` and `fail_count` count
   * the succeeded and the failed scenes, and downloads are named after the
   * succeeded scenes' positions.
   */
  method GenerateAll(scenes: seq<VideoScene>, skipDownload: bool)
    returns (successCount: nat, failCount: nat, downloads: seq<string>)
    ensures successCount == Count(Results(scenes, skipDownload), IsSuccess)
    ensures failCount == Count(Results(scenes, skipDownload), IsFailure)
    ensures successCount + failCount <= |scenes|
    ensures downloads == Downloads(Results(scenes, skipDownload))
  {
    successCount := 0;
    failCount := 0;
    downloads := [];
    var i := 0;
    while i < |scenes|
      invariant 0 <= i <= |scenes|
      invariant successCount == Count(Results(scenes[..i], skipDownload), IsSuccess)
      invariant failCount == Count(Results(scenes[..i], skipDownload), IsFailure)
      invariant downloads == Downloads(Results(scenes[..i], skipDownload))
    {
      TallyStep(scenes, i, skipDownload);
      var r := ProcessScene(scenes[i], i + 1, skipDownload);
      successCount, failCount, downloads := Tally(r, successCount, failCount, downloads);
      i := i + 1;
    }
    assert scenes[..i] == scenes;
    CountersBounded(Results(scenes, skipDownload));
  }
}
