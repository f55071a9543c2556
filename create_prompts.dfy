/**
 * The prompt creator: one image prompt and one video prompt per scene of
 * the analysis, filled into fixed templates, and the metadata saved with
 * them. The subject description comes from the image describer and is an
 * input here.
 */
module CreatePrompts {
  import opened Text

  /**
   * One scene of the analysis. Every value is the text its YAML value puts
   * into an f-string; the scene number is an integer.
   */
  datatype AnalysisScene = AnalysisScene(
    sceneNumber: int,
    description: string,
    duration: string,
    environment: string,
    lighting: string,
    camera: string,
    action: string)

  /** One entry of the `prompts` list. */
  datatype PromptEntry = PromptEntry(
    sceneNumber: int,
    description: string,
    duration: string,
    imagePrompt: string,
    videoPrompt: string)

  /** `scene['action'].split('.')[0]`: the action up to its first `.`. */
  function FirstSentence(action: string): string {
    Split(action, '.')[0]
  }

  const PoseIntro := "The subject is in this position/pose: "
  const DetailsIntro := "Details: Sharp focus, natural colors, "

  /** The image template before `strip()`: the setting block, the pose line, the style line, the details line. */
  function ImageTemplate(subject: string, scene: AnalysisScene): string {
    ImageHead(subject, scene) + PoseLine(scene) + ImageStyle + DetailsLine(scene)
  }

  function ImageHead(subject: string, scene: AnalysisScene): string {
    subject + "\n\nSetting: " + scene.environment + "\nLighting: " + scene.lighting +
    "\nCamera: " + scene.camera + "\n\n"
  }

  function PoseLine(scene: AnalysisScene): string {
    PoseIntro + FirstSentence(scene.action) + "."
  }

  const ImageStyle := "\n\nStyle: Photorealistic, high quality, professional photography\n"

  function DetailsLine(scene: AnalysisScene): string {
    DetailsIntro + Lower(scene.lighting)
  }

  /** The video template before `strip()`: everything up to the motion line, the motion line, the rest. */
  function VideoTemplate(subject: string, scene: AnalysisScene): string {
    VideoHead(subject, scene) + MotionLine(scene) + VideoTail(scene)
  }

  function VideoHead(subject: string, scene: AnalysisScene): string {
    "Camera Type: " + scene.camera + "\n\nMain Movement: " + subject + " " + scene.action +
    "\n\nSetting: " + scene.environment + "\nLighting: " + scene.lighting + "\n\n"
  }

  function MotionLine(scene: AnalysisScene): string {
    "Motion details: " + scene.action + "\nDuration:"
  }

  function VideoTail(scene: AnalysisScene): string {
    " " + scene.duration + " seconds" +
    "\n\nStyle: Smooth, natural motion, high quality video, realistic physics"
  }

  /** The entry appended for one scene. */
  function MakeEntry(subject: string, scene: AnalysisScene): PromptEntry {
    PromptEntry(scene.sceneNumber, scene.description, scene.duration,
                Strip(ImageTemplate(subject, scene)), Strip(VideoTemplate(subject, scene)))
  }

  /** The entries for a list of scenes, in scene order. */
  function Entries(subject: string, scenes: seq<AnalysisScene>): (r: seq<PromptEntry>)
    ensures |r| == |scenes|
  {
    if scenes == [] then [] else Entries(subject, scenes[..|scenes| - 1]) + [MakeEntry(subject, scenes[|scenes| - 1])]
  }

  /** The `k`-th entry is made from the `k`-th scene. */
  lemma {:induction false} EntriesIndex(subject: string, scenes: seq<AnalysisScene>, k: nat)
    requires k < |scenes|
    ensures Entries(subject, scenes)[k] == MakeEntry(subject, scenes[k])
  {
    var init := scenes[..|scenes| - 1];
    var last := MakeEntry(subject, scenes[|scenes| - 1]);
    assert Entries(subject, scenes) == Entries(subject, init) + [last];
    if k < |scenes| - 1 {
      EntriesIndex(subject, init, k);
      assert init[k] == scenes[k];
    }
  }

  lemma EntriesStep(subject: string, scenes: seq<AnalysisScene>, i: nat)
    requires i < |scenes|
    ensures Entries(subject, scenes[..i + 1]) == Entries(subject, scenes[..i]) + [MakeEntry(subject, scenes[i])]
  {
    assert scenes[..i + 1][..i] == scenes[..i];
  }

  /** The loop of `create_prompts`: one entry per scene, appended in scene order. */
  method CreatePromptList(scenes: seq<AnalysisScene>, subject: string) returns (prompts: seq<PromptEntry>)
    ensures prompts == Entries(subject, scenes)
  {
    prompts := [];
    for i := 0 to |scenes|
      invariant prompts == Entries(subject, scenes[..i])
    {
      EntriesStep(subject, scenes, i);
      prompts := prompts + [MakeEntry(subject, scenes[i])];
    }
    assert scenes[..|scenes|] == scenes;
  }

  /** The scene number, duration and description are copied, and both prompts are stored stripped. */
  lemma EntryCopiesScene(subject: string, scene: AnalysisScene)
    ensures var e := MakeEntry(subject, scene);
      e.sceneNumber == scene.sceneNumber && e.duration == scene.duration &&
      e.description == scene.description &&
      IsStripped(e.imagePrompt) && IsStripped(e.videoPrompt)
  {
    var _, _ := StripShape(ImageTemplate(subject, scene));
    var _, _ := StripShape(VideoTemplate(subject, scene));
  }

  /**
   * The image prompt carries the pose line with the action's first
   * sentence: a prefix of the action holding no `.`, followed by `.`.
   */
  lemma ImagePromptHasFirstSentence(subject: string, scene: AnalysisScene)
    ensures var first := FirstSentence(scene.action);
      IsPrefix(first, scene.action) && '.' !in first &&
      Contains(MakeEntry(subject, scene).imagePrompt, PoseIntro + first + ".")
  {
    FirstPieceIsPrefix(scene.action, '.');
    var x := ImageHead(subject, scene);
    var b := PoseLine(scene);
    var y := ImageStyle + DetailsLine(scene);
    assert ImageTemplate(subject, scene) == x + b + y;
    assert b[0] == 'T';
    BlockSurvivesStrip(x, b, y);
  }

  /** The Details line ends the image prompt with the lower-cased lighting (when that ends in a non-space). */
  lemma ImagePromptHasLowerLighting(subject: string, scene: AnalysisScene)
    requires scene.lighting != [] && !IsSpace(scene.lighting[|scene.lighting| - 1])
    ensures Contains(MakeEntry(subject, scene).imagePrompt, DetailsIntro + Lower(scene.lighting))
  {
    var x := ImageHead(subject, scene) + PoseLine(scene) + ImageStyle;
    var b := DetailsLine(scene);
    assert ImageTemplate(subject, scene) == x + b + "";
    assert b[0] == 'D';
    assert b[|b| - 1] == LowerChar(scene.lighting[|scene.lighting| - 1]);
    BlockSurvivesStrip(x, b, "");
  }

  /** The video prompt carries the full action, on the Motion details line. */
  lemma VideoPromptHasAction(subject: string, scene: AnalysisScene)
    ensures Contains(MakeEntry(subject, scene).videoPrompt, "Motion details: " + scene.action + "\nDuration:")
  {
    var b := MotionLine(scene);
    assert b[0] == 'M' && b[|b| - 1] == ':';
    BlockSurvivesStrip(VideoHead(subject, scene), b, VideoTail(scene));
  }

  /** The `metadata` block written by `save_prompts`. */
  datatype Metadata = Metadata(totalScenes: nat, totalDuration: string, musicSound: string)

  /** `save_prompts`: the metadata counts the prompts it is saved with. */
  function SaveMetadata(prompts: seq<PromptEntry>, overallDuration: string, musicSound: string): (m: Metadata)
    ensures m.totalScenes == |prompts|
  {
    Metadata(|prompts|, overallDuration, musicSound)
  }

  /**
   * Saving the prompts built from the analysis: `total_scenes` is the
   * number of analysis scenes, and the overall duration and the music
   * description are copied from the analysis.
   */
  lemma MetadataCountsScenes(subject: string, scenes: seq<AnalysisScene>, overallDuration: string, musicSound: string)
    ensures SaveMetadata(Entries(subject, scenes), overallDuration, musicSound) ==
      Metadata(|scenes|, overallDuration, musicSound)
  {
  }
}
