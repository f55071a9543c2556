/**
 * The image generator: the request payload per model, the image polling
 * loop, and the per-scene tally of its main loop.
 */
module GenerateImages {
  import opened Wrappers
  import opened Text
  import opened Seqs
  import opened Records
  import opened PromptTruncation
  import opened KieTasks

  /** One entry of the `MODELS` table (the cost is left out). */
  datatype ModelConfig = ModelConfig(
    name: string,
    supportsImageInput: bool,
    supportsResolution: bool,
    maxPromptLength: nat,
    defaultAspectRatio: string)

  const ZImage := ModelConfig("z-image", false, false, 1000, "1:1")
  const NanoBananaPro := ModelConfig("nano-banana-pro", true, true, 10000, "1:1")

  /** A value of the payload's `input` object: a string or a list of strings. */
  datatype InputValue = StrValue(s: string) | ListValue(items: seq<string>)

  /** `reference_image_url` is truthy: given and not empty. */
  predicate HasReference(refUrl: Option<string>) {
    refUrl.Some? && refUrl.value != ""
  }

  /** The keys of the `input` object that the payload builder sets. */
  function ImageInputKeys(modelName: string, config: ModelConfig, refUrl: Option<string>): set<string> {
    {"prompt", "aspect_ratio"} +
    (if modelName == "nano-banana-pro" then
       {"output_format"} +
       (if config.supportsResolution then {"resolution"} else {}) +
       (if HasReference(refUrl) && config.supportsImageInput then {"image_input"} else {})
     else {})
  }

  /**
   * The payload of `create_image_generation_task`: a base `input` object
   * with the (possibly truncated) prompt and the aspect ratio, to which the
   * nano-banana-pro branch adds its entries one by one.
   */
  method BuildImagePayload(prompt: string, modelName: string, config: ModelConfig, refUrl: Option<string>,
                           aspectRatio: string, resolution: string)
    returns (model: string, input: map<string, InputValue>)
    ensures model == modelName
    ensures input.Keys == ImageInputKeys(modelName, config, refUrl)
    ensures input["prompt"] == StrValue(Truncated(prompt, config.maxPromptLength))
    ensures input["aspect_ratio"] == StrValue(aspectRatio)
    ensures "resolution" in input ==> input["resolution"] == StrValue(resolution)
    ensures "output_format" in input ==> input["output_format"] == StrValue("png")
    ensures "image_input" in input ==> input["image_input"] == ListValue([refUrl.value])
    ensures config.maxPromptLength >= 3 ==> |input["prompt"].s| <= config.maxPromptLength
  {
    var sent := PromptToSend(prompt, config.maxPromptLength);
    model := modelName;
    input := map["prompt" := StrValue(sent), "aspect_ratio" := StrValue(aspectRatio)];
    if modelName == "nano-banana-pro" {
      if config.supportsResolution {
        input := input["resolution" := StrValue(resolution)];
      }
      input := input["output_format" := StrValue("png")];
      if HasReference(refUrl) && config.supportsImageInput {
        input := input["image_input" := ListValue([refUrl.value])];
      }
    }
  }

  /** z-image sends only the prompt and the aspect ratio, whatever reference is given. */
  lemma ZImageSendsPromptAndAspectOnly(refUrl: Option<string>)
    ensures ImageInputKeys(ZImage.name, ZImage, refUrl) == {"prompt", "aspect_ratio"}
  {
  }

  /** nano-banana-pro always sends `resolution` and `output_format`, and `image_input` exactly when a reference is given. */
  lemma NanoBananaProKeys(refUrl: Option<string>)
    ensures "output_format" in ImageInputKeys(NanoBananaPro.name, NanoBananaPro, refUrl)
    ensures "resolution" in ImageInputKeys(NanoBananaPro.name, NanoBananaPro, refUrl)
    ensures "image_input" in ImageInputKeys(NanoBananaPro.name, NanoBananaPro, refUrl) <==> HasReference(refUrl)
  {
  }

  /**
   * `poll_task_status` of the image generator: poll until `success`,
   * `fail` or the timeout, sleeping 5 seconds after a transient error or
   * an unknown state and by the schedule while the job is pending.
   */
  method PollTaskStatus(respond: nat -> PollResponse, maxWait: nat) returns (outcome: PollOutcome, pollCount: nat, elapsed: nat)
    ensures SameEnd(PollRun(outcome, [], pollCount, elapsed), Run(ImageTask, respond, maxWait, 0, 0))
  {
    elapsed := 0;
    pollCount := 0;
    while elapsed < maxWait
      invariant SameEnd(Run(ImageTask, respond, maxWait, pollCount, elapsed), Run(ImageTask, respond, maxWait, 0, 0))
      decreases maxWait - elapsed
    {
      var response := respond(pollCount);
      pollCount := pollCount + 1;
      var sleep: nat;
      if response.TransportError? || response.status != 200 || response.body.NotJson? {
        sleep := RetryDelay;
      } else if response.body.NotObject? {
        outcome := MalformedResult;
        return;
      } else {
        var data := response.body;
        if data.state == Some("success") {
          var parsed := match data.resultJson
            case Absent => Some(Object([]))
            case Text(p) => p
            case Decoded(_) => None;
          if parsed.None? || parsed.value.NonObject? {
            outcome := MalformedResult;
          } else if parsed.value.resultUrls == [] {
            outcome := NoResultUrls;
          } else {
            outcome := Completed(parsed.value.resultUrls);
          }
          return;
        } else if data.state == Some("fail") {
          outcome := Failed(data.failCode.GetOr("N/A"), data.failMsg.GetOr("Unknown error"));
          return;
        } else if data.state.Some? && data.state.value in PendingStates {
          if elapsed < 30 {
            sleep := 3;
          } else if elapsed < 120 {
            sleep := 5;
          } else {
            sleep := 10;
          }
        } else {
          sleep := RetryDelay;
        }
      }
      elapsed := elapsed + sleep;
    }
    outcome := TimedOut;
  }

  /**
   * What the main loop needs to know about one scene: its record, the
   * reply to the create request, the replies to the status polls, and
   * whether writing the image into the record succeeds.
   */
  datatype ImageScene = ImageScene(record: AirRecord, create: CreateReply, respond: nat -> PollResponse, updateSucceeds: bool)

  /** `fields.get('start_image_prompt', '')`. */
  function ImagePrompt(scene: ImageScene): string {
    TextField(scene.record.fields, ImagePromptField, "")
  }

  /** The image URL written into the scene's record, if the scene succeeds. */
  function ImageSceneUrl(scene: ImageScene): (r: Option<string>)
    ensures ImagePrompt(scene) == "" ==> r.None?
    ensures r.Some? <==>
      ImagePrompt(scene) != "" && CreateTaskResult(scene.create).Success? && scene.updateSucceeds &&
      Run(ImageTask, scene.respond, ImageMaxWait, 0, 0).outcome.Completed?
    ensures r.Some? ==>
      var outcome := Run(ImageTask, scene.respond, ImageMaxWait, 0, 0).outcome;
      outcome.urls != [] && r.value == outcome.urls[0]
  {
    if ImagePrompt(scene) == "" then None
    else if CreateTaskResult(scene.create).Failure? then None
    else
      ImageCompletedNonEmpty(scene.respond, ImageMaxWait, 0, 0);
      var outcome := Run(ImageTask, scene.respond, ImageMaxWait, 0, 0).outcome;
      if outcome.Completed? && scene.updateSucceeds then Some(outcome.urls[0]) else None
  }

  predicate ImageSceneSucceeds(scene: ImageScene) {
    ImageSceneUrl(scene).Some?
  }

  predicate ImageSceneFails(scene: ImageScene) {
    !ImageSceneSucceeds(scene)
  }

  /** A record update: the record id and the image URL put into its `start_image`. */
  datatype ImageUpdate = ImageUpdate(recordId: string, url: string)

  /** The updates the main loop makes, in scene order. */
  function ImageUpdates(scenes: seq<ImageScene>): seq<ImageUpdate> {
    if scenes == [] then []
    else
      var last := scenes[|scenes| - 1];
      ImageUpdates(scenes[..|scenes| - 1]) +
      (if ImageSceneSucceeds(last) then [ImageUpdate(last.record.id, ImageSceneUrl(last).value)] else [])
  }

  /** One update per successful scene. */
  lemma {:induction false} UpdatesMatchSuccesses(scenes: seq<ImageScene>)
    ensures |ImageUpdates(scenes)| == Count(scenes, ImageSceneSucceeds)
  {
    if scenes != [] {
      UpdatesMatchSuccesses(scenes[..|scenes| - 1]);
    }
  }

  /**
   * The body of the loop in `main` for one scene: skip an empty prompt,
   * create the task, poll it, then write the first URL into the record.
   */
  method GenerateOne(scene: ImageScene) returns (url: Option<string>)
    ensures url == ImageSceneUrl(scene)
  {
    if ImagePrompt(scene) == "" {
      return None;
    }
    var created := CreateTaskResult(scene.create);
    if created.Failure? {
      return None;
    }
    var outcome, _, _ := PollTaskStatus(scene.respond, ImageMaxWait);
    if outcome.Completed? && outcome.urls != [] && scene.updateSucceeds {
      url := Some(outcome.urls[0]);
    } else {
      url := None;
    }
  }

  /** What one more scene adds to the two counters and to the updates. */
  lemma TallyStep(scenes: seq<ImageScene>, i: nat)
    requires i < |scenes|
    ensures Count(scenes[..i + 1], ImageSceneSucceeds) ==
      Count(scenes[..i], ImageSceneSucceeds) + (if ImageSceneSucceeds(scenes[i]) then 1 else 0)
    ensures Count(scenes[..i + 1], ImageSceneFails) ==
      Count(scenes[..i], ImageSceneFails) + (if ImageSceneFails(scenes[i]) then 1 else 0)
    ensures ImageUpdates(scenes[..i + 1]) == ImageUpdates(scenes[..i]) +
      (if ImageSceneSucceeds(scenes[i]) then [ImageUpdate(scenes[i].record.id, ImageSceneUrl(scenes[i]).value)] else [])
  {
    var prefix := scenes[..i];
    assert scenes[..i + 1] == prefix + [scenes[i]];
    assert (prefix + [scenes[i]])[..i] == prefix;
    CountAppend(prefix, scenes[i], ImageSceneSucceeds);
    CountAppend(prefix, scenes[i], ImageSceneFails);
  }

  /**
   * The generation loop of `main`: every scene adds to exactly one of the
   * two counters, and each success has updated its record.
   */
  method GenerateAll(scenes: seq<ImageScene>) returns (successful: nat, failed: nat, updates: seq<ImageUpdate>)
    ensures successful == Count(scenes, ImageSceneSucceeds)
    ensures failed == Count(scenes, ImageSceneFails)
    ensures successful + failed == |scenes|
    ensures updates == ImageUpdates(scenes)
  {
    successful := 0;
    failed := 0;
    updates := [];
    var i := 0;
    while i < |scenes|
      invariant 0 <= i <= |scenes|
      invariant successful == Count(scenes[..i], ImageSceneSucceeds)
      invariant failed == Count(scenes[..i], ImageSceneFails)
      invariant updates == ImageUpdates(scenes[..i])
    {
      var scene := scenes[i];
      TallyStep(scenes, i);
      var url := GenerateOne(scene);
      if url.Some? {
        updates := updates + [ImageUpdate(scene.record.id, url.value)];
        successful := successful + 1;
      } else {
        failed := failed + 1;
      }
      i := i + 1;
    }
    assert scenes[..i] == scenes;
    CountSplit(scenes, ImageSceneSucceeds, ImageSceneFails);
  }
}
