# creative-cloner tool scripts, modelled in Dafny

creative-cloner turns a reference video into a new video in which a given
subject plays every scene. Seven command-line scripts make up the
pipeline:

- `analyze_video.py` turns a Gemini analysis into YAML scenes;
- `create_prompts.py` writes an image prompt and a video prompt per scene;
- `log_to_airtable.py` stores the prompts as Airtable records;
- `generate_images.py` asks Kie.ai for a start image per record;
- `generate_videos.py` asks Kie.ai for a video per record that has an image;
- `combine_all.py` joins the downloaded clips with FFmpeg, optionally with music;
- `verify_setup.py` checks the installation.

This project models the deterministic core of those scripts. Every
vendor, store, clock and subprocess becomes an input:

- a Kie.ai reply is a status code plus a decoded body;
- a status poll is a function from the poll number to a reply;
- an Airtable record is an id plus a map from field name to value;
- FFmpeg, the file system and the interpreter are booleans and listings.

Modules, one per script plus shared parts:

| file | module | models |
|---|---|---|
| `wrappers.dfy` | `Wrappers` | `Option` and `Result` |
| `records.dfy` | `Records` | Airtable records, field names, Python truthiness of field values |
| `seqs.dfy` | `Seqs` | filter, count and flatten over sequences |
| `text.dfy` | `Text` | the `str` operations the scripts use: `in`, `find`, `strip`, `split`, `join`, slicing, `lower`, `replace`, `str(int)` |
| `truncation.dfy` | `PromptTruncation` | `truncate_prompt`, which both generator scripts define identically (`tools/generate_images.py:124-144`, `tools/generate_videos.py:131-151`) |
| `kie_tasks.dfy` | `KieTasks` | the create-task reply classification and the two status-polling state machines on a fake clock |
| `generate_images.dfy` | `GenerateImages` | payload, poll loop, per-scene outcome and tally of the image generator |
| `generate_videos.dfy` | `GenerateVideos` | scene filter, attachment URL, payload, poll loop, file name, per-scene outcome and tally of the video generator |
| `combine_all.dfy` | `CombineAll` | scene-number key, sort, concat list, FFmpeg argument lists, clean-up and exit decisions of the combiner |
| `log_to_airtable.dfy` | `LogToAirtable` | scene label, record shape, batched deletion and logging loop |
| `create_prompts.dfy` | `CreatePrompts` | the prompt templates and the saved metadata |
| `analyze_video.dfy` | `AnalyzeVideo` | `parse_to_yaml` |
| `verify_setup.dfy` | `VerifySetup` | the version, dependency, `.env` and directory checks and the exit code |

Loops in the scripts are `while`/`for` loops in Dafny methods. Each method
is proved equal to a specification function, and the properties are
lemmas about those functions:

- the prompt truncation loop;
- both poll loops;
- the scene filter;
- the tallies;
- the concat-file writer;
- the clean-up counter;
- the batch deleter;
- the record logger;
- the prompt list;
- the `.env` key loop;
- the summary loop.

The fake clock works as follows:

- elapsed time is the sum of the sleeps;
- requests take no time;
- `int(time.time() - start)` is that sum.

Python behaviour the model keeps:

- **Deletion batches.** `range(0, n, 10)` with `ids[i:i+10]` gives a short last batch.
- **Status checks come first.** The create-task status check precedes the body checks.
- **A non-JSON reply.** `response.json()` raises a `requests` exception, which is caught as a network error in task creation and retried in polling.
- **`json.loads` in the image poll.** It is not guarded, so a `resultJson` that does not parse, or is not a string, ends the poll with an error. The video poll catches the decode error and polls again.
- **`sys.exit` inside `try`.** `sys.exit(1)` inside the combiner's `try` is not caught by `except Exception`, so clean-up runs once.
- **Mixed sort keys.** `video_files.sort(key=get_scene_number)` with both integer and string keys raises `TypeError`, because any comparison sort compares each adjacent pair of its output. The model reports this as `MixedKeyError`; it happens outside the `try`, so the combiner exits with status 1 and never cleans up.

## Where the code differs from its design description

The model follows the code in each case:

- **Transient poll errors.** They are retried every 5 seconds until the overall wait runs out, with no separate bound on retries.
- **Last sleep.** A sleep may start just before `max_wait` and end after it. `KieTasks.RunTimeout` bounds the overshoot by the largest sleep (10 s for images, 30 s for videos), instead of keeping the total within the timeout.
- **Interval monotonicity.** Intervals are non-decreasing only among the schedule sleeps. A 5-second retry or unknown-state sleep can follow a 10-second one (`KieTasks.BackoffNonDecreasing`).
- **Video timeout.** The video poll raises a plain `Exception` on timeout, not `TimeoutError`.
- **Scene failures.** A failed scene does not halt the run. Both generators count it and go on to the next scene.

## Model

| member | source | states |
|---|---|---|
| Records.Truthy | tools/generate_videos.py:104-105 | definition: Python truthiness of a field value, a non-empty string or a non-empty attachment list |
| Records.HasValue | tools/generate_videos.py:104-105 | definition: `key in fields and fields[key]` |
| Records.TextField | tools/generate_images.py:539 | definition: `fields.get(key, default)` for a field that holds text when present |
| Text.Strip | tools/create_prompts.py:158-159 | definition: `str.strip()` with no argument, removing leading and trailing white space |
| Text.Lower | tools/create_prompts.py:135 | definition: `str.lower()`, for ASCII letters |
| Text.StripCutsSpaces | tools/create_prompts.py:158-159 | `strip()` gives a slice of the text, and everything it cuts from either end is white space |
| Text.StripShape | tools/create_prompts.py:158-159 | the stripped text is a slice of the text with no white space at either end |
| Text.StripIdempotent | tools/generate_images.py:144 | stripping twice is stripping once |
| Text.BlockSurvivesStrip | tools/create_prompts.py:158-159 | a block that starts and ends with a non-space character is still in the text after `strip()` |
| Text.Split | tools/generate_images.py:132 | `str.split(sep)` for a one-character separator: at least one piece, none holding `sep` |
| Text.SplitJoin | tools/generate_images.py:132 | joining the pieces of `split(sep)` with `sep` gives the text back |
| PromptTruncation.Pack | tools/generate_images.py:132-138 | definition: the sentence loop, adding `sentence + "."` while the length stays within `max_length - 50` and stopping at the first sentence that does not fit |
| PromptTruncation.Truncated | tools/generate_images.py:124-144 | definition: `truncate_prompt`, with the identity case, the packed text, the hard-cut fallback when that is empty or under 50 characters, and the final `strip()` |
| PromptTruncation.TruncatePrompt | tools/generate_images.py:124-144 | the sentence-packing loop returns `Truncated(prompt, max_length)`, the value every lemma below is about |
| PromptTruncation.PromptToSend | tools/generate_images.py:158-163 | the prompt put into the payload is the truncated prompt and, for a limit of at least 3, fits within the model's limit |
| PromptTruncation.ShortPromptUnchanged | tools/generate_images.py:128-129 | a prompt within the limit comes back exactly as given, not even stripped |
| PromptTruncation.PackIsSentencePrefix | tools/generate_images.py:132-138 | packing whole sentences yields a prefix of the prompt that ends in `.` (or is empty) and fits the budget |
| PromptTruncation.PackedBranch | tools/generate_images.py:132-138 | when at least 50 characters of sentences fit, the text before stripping is a prefix of the prompt ending in `.` and at most `max_length - 50` long |
| PromptTruncation.FallbackBranch | tools/generate_images.py:140-142 | otherwise the text before stripping is `prompt[:max_length-3] + "..."`, exactly `max_length` long |
| PromptTruncation.LengthBound | tools/generate_images.py:124-144 | for `max_length >= 3` the result never exceeds `max_length` characters |
| PromptTruncation.Idempotent | tools/generate_images.py:124-144 | truncating a truncated prompt again changes nothing, for `max_length >= 3` |
| PromptTruncation.SmallLimitOverflows | tools/generate_images.py:141-142 | below a limit of 3 the bound fails: `truncate_prompt("abcd", 2)` is `"abc..."` |
| KieTasks.ImageSuccess | tools/generate_images.py:279-289 | definition: the image poll on `success`: an unparsable or non-string `resultJson`, or a non-object, is an error; an empty URL list is an error; otherwise the URLs |
| KieTasks.VideoSuccess | tools/generate_videos.py:278-288 | definition: the video poll on `success`: a string is parsed (a parse error is retried after 5 s), a decoded object is used as is, and the URL list is returned even when empty |
| KieTasks.Run | tools/generate_images.py:254-312 | definition: the whole poll loop on the fake clock, one poll per step while elapsed is under `max_wait`, ending on a final step or in a timeout |
| KieTasks.SpecialStatus | tools/generate_images.py:209-214 | definition: the statuses 402, 422 and 429, each of which has its own error |
| KieTasks.CreateTaskResult | tools/generate_images.py:199-239 | 402 is insufficient credits, 422 invalid parameters with the reply text, 429 rate limited, any other non-200 a creation failure with status and text, a transport error or non-JSON body a network error; a task id is returned exactly when a 200 reply carries a non-empty `data.taskId` |
| KieTasks.ErrorDeterminesStatus | tools/generate_videos.py:205-226 | the error kind tells which status came back (the special statuses, another non-200, or 200 with a bad body); only a non-JSON 200 body gives a network error |
| KieTasks.Interval | tools/generate_videos.py:295-301 | image sleeps between polls are 3 to 10 seconds, video sleeps 10 to 30 |
| KieTasks.IntervalMonotone | tools/generate_images.py:296-303 | both schedules are non-decreasing in elapsed time (3/5/10 at 30 and 120 s for images, 10/15/30 at 60 and 180 s for videos) |
| KieTasks.PollStep | tools/generate_images.py:267-310 | one poll either ends the wait with an outcome other than a timeout, or sleeps the schedule interval (waiting states) or 5 seconds (retries and unknown states), never longer than the largest interval |
| KieTasks.PollStepCases | tools/generate_images.py:267-310 | transport errors, non-200 statuses and non-JSON bodies sleep 5 s and poll again; `fail` is the only failure and carries `failCode`/`failMsg`; images sleep by the schedule exactly in `waiting`/`queuing`/`generating`; videos sleep by the schedule exactly in any state other than `success`/`fail`; an image completion always has URLs |
| KieTasks.RunAccounting | tools/generate_images.py:254-258 | the elapsed time at the end is the sum of the sleeps, and the poll count is one per sleep plus the final poll unless the wait timed out |
| KieTasks.RunTimeout | tools/generate_images.py:257-312 | the wait times out exactly when the clock reaches `max_wait`, every sleep starts before `max_wait`, and the clock ends less than one largest interval past it |
| KieTasks.RunChained | tools/generate_images.py:257-306 | the sleeps start at the starting clock and each starts where the previous one ended |
| KieTasks.RunSleepSteps | tools/generate_images.py:257-310 | sleep `k` of a run is the one the step chose for poll `k` |
| KieTasks.RunFinalStep | tools/generate_images.py:279-294 | an outcome other than a timeout is what the last poll decided |
| KieTasks.RunFollowsSchedule | tools/generate_images.py:296-306 | every sleep is the schedule interval at its start time or the 5-second retry delay |
| KieTasks.ChainedOrdered | tools/generate_images.py:257-258 | in a chained sleep list, later sleeps start no earlier |
| KieTasks.BackoffNonDecreasing | tools/generate_videos.py:295-301 | among the schedule sleeps of one run, a later sleep is never shorter |
| KieTasks.ImageCompletedNonEmpty | tools/generate_images.py:279-289 | an image wait that completes returns a non-empty URL list |
| KieTasks.ImageCompletesOnThirdPoll | tools/generate_images.py:296-303 | two `generating` replies then `success` give two 3-second sleeps, three polls and six seconds |
| KieTasks.VideoRetriesServerErrors | tools/generate_videos.py:267-270 | two 500 replies then `success` give two 5-second retries and three polls |
| KieTasks.VideoTimesOut | tools/generate_videos.py:256-312 | a video that stays `generating` times out between 900 and 930 seconds |
| KieTasks.ImageOrVideoNeverFinishes | tools/generate_images.py:257-312 | replies that stay `generating` always end in a timeout |
| GenerateImages.BuildImagePayload | tools/generate_images.py:158-194 | the model name, the truncated prompt and the aspect ratio are always sent; `resolution`, `output_format = "png"` and `image_input = [url]` appear only as the model allows |
| GenerateImages.ZImageSendsPromptAndAspectOnly | tools/generate_images.py:189-194 | z-image's input holds only `prompt` and `aspect_ratio`, with or without a reference image |
| GenerateImages.NanoBananaProKeys | tools/generate_images.py:180-187 | nano-banana-pro always gets `output_format` and `resolution`, and gets `image_input` exactly when a reference URL is given |
| GenerateImages.PollTaskStatus | tools/generate_images.py:242-312 | the image `while` loop ends with the outcome, poll count and clock of the specified run with a 600-second limit |
| GenerateImages.ImagePrompt | tools/generate_images.py:539 | definition: `fields.get('start_image_prompt', '')` |
| GenerateImages.ImageUpdates | tools/generate_images.py:564-573 | definition: the record updates of main's loop, one per successful scene with its first URL, in scene order |
| GenerateImages.ImageSceneUrl | tools/generate_images.py:535-581 | a scene yields a URL exactly when its prompt is non-empty, the task is created, the wait completes and the record update succeeds; the URL is the first result |
| GenerateImages.UpdatesMatchSuccesses | tools/generate_images.py:565-574 | the main loop makes exactly one record update per successful scene |
| GenerateImages.GenerateOne | tools/generate_images.py:536-581 | one loop iteration produces the specified scene outcome |
| GenerateImages.GenerateAll | tools/generate_images.py:532-581 | `successful` and `failed` count the succeeding and failing scenes, add up to the number of scenes, and the updates are those of the successful scenes in order |
| GenerateVideos.IsReady | tools/generate_videos.py:104-107 | definition: a record has a truthy `start_image` and no truthy `scene_video` |
| GenerateVideos.VideoFilename | tools/generate_videos.py:555 | definition: `scene_{i}_{slug}.mp4` |
| GenerateVideos.ReadyScenes | tools/generate_videos.py:100-111 | the filter keeps, in order, exactly the records with a non-empty `start_image` and no non-empty `scene_video` |
| GenerateVideos.GetImageUrl | tools/generate_videos.py:114-128 | a missing or empty `start_image` is an error; otherwise the URL of the first attachment is returned |
| GenerateVideos.ReadySceneHasImage | tools/generate_videos.py:104-124 | a record the filter keeps never fails for want of an image |
| GenerateVideos.BuildVideoPayload | tools/generate_videos.py:167-190 | the input has exactly the six keys, with the truncated prompt (within the limit), the image URL as a one-element list, and `upload_method = "s3"` |
| GenerateVideos.PollTaskStatus | tools/generate_videos.py:237-312 | the video `while` loop ends with the outcome, poll count and clock of the specified run with a 900-second limit |
| GenerateVideos.SceneSlug | tools/generate_videos.py:555 | the slug is the scene name with spaces turned into `_`, cut to 30 characters, and holds no space |
| GenerateVideos.SceneName | tools/generate_videos.py:506 | definition: `fields.get('scene', f'Scene {i}')` |
| GenerateVideos.VideoPrompt | tools/generate_videos.py:512 | definition: `fields.get('video_prompt', '')` |
| GenerateVideos.Results | tools/generate_videos.py:503-570 | definition: the outcome of each scene of main's loop, numbered from 1, in order |
| GenerateVideos.Downloads | tools/generate_videos.py:553-557 | definition: the files downloaded by the successful scenes, in scene order |
| GenerateVideos.VideoSceneResult | tools/generate_videos.py:510-570 | a missing image is a failure; an empty prompt skips the scene; the scene succeeds exactly when creation, a non-empty result list, the update and (unless skipped) the download all succeed, with the first URL and file `scene_{i}_{slug}.mp4` |
| GenerateVideos.ProcessScene | tools/generate_videos.py:505-570 | one loop iteration produces the specified scene outcome |
| GenerateVideos.ResultsIndex | tools/generate_videos.py:503 | scene `k` of the list is processed with number `k + 1` |
| GenerateVideos.CountersBounded | tools/generate_videos.py:497-570 | successes plus failures never exceed the number of scenes, because skipped scenes count as neither |
| GenerateVideos.Tally | tools/generate_videos.py:559-569 | a success increments only `success_count` and records its download; a failure increments only `fail_count`; a skip changes nothing |
| GenerateVideos.GenerateAll | tools/generate_videos.py:497-570 | the counters count the successful and failed scenes, their sum is at most the number of scenes, and the downloads are those of the successful scenes in order |
| CombineAll.Key | tools/combine_all.py:74-82 | definition: the sort key of a file, `get_scene_number` of its name |
| CombineAll.Selected | tools/combine_all.py:63-65 | definition: the project filter, applied only when the project name is truthy |
| CombineAll.SortBy | tools/combine_all.py:82 | definition: `list.sort(key=…)` on a list whose keys compare consistently, as a stable insertion sort |
| CombineAll.ConcatLine | tools/combine_all.py:99-103 | definition: the line `file '<path>'` written for one video, with backslashes turned into `/` |
| CombineAll.TempFiles | tools/combine_all.py:341-354 | definition: the temporary files listed at clean-up: the concat list, plus `temp_<name>` once the music branch is reached |
| CombineAll.AllStepsSucceed | tools/combine_all.py:344-383 | definition: writing the list, creating the output directory, combining and, with music, finding the music file and adding it all succeed |
| CombineAll.MatchAt | tools/combine_all.py:76 | definition: `scene[_\s]*(\d+)` matched case-insensitively at one index, giving the number its group reads |
| CombineAll.SearchFrom | tools/combine_all.py:76 | `re.search`: the leftmost index at which the anchored match succeeds, with its number, and no match before it; none exactly when no index matches |
| CombineAll.MixedKeys | tools/combine_all.py:74-82 | definition: the list holds both an `int` key and a `str` key, which makes `sort` raise `TypeError` |
| CombineAll.MentionsProject | tools/combine_all.py:65 | definition: `project_name.lower() in f.name.lower()` |
| CombineAll.FadeFilter | tools/combine_all.py:190 | definition: `[1:a]afade=t=out:st=0:d=<fade>[audio]` |
| CombineAll.Deletable | tools/combine_all.py:237-241 | definition: the listed files that exist and can be unlinked |
| CombineAll.HasMusic | tools/combine_all.py:352 | definition: `if args.music:`, a given, non-empty music path |
| CombineAll.ConcatFile | tools/combine_all.py:341 | definition: `<input_dir>/videos_concat_list.txt` |
| CombineAll.TempOutput | tools/combine_all.py:354 | definition: `<output parent>/temp_<output name>` |
| CombineAll.GetSceneNumber | tools/combine_all.py:74-80 | the key is the number after the leftmost case-insensitive `scene[_\s]*\d+` match, and the file name itself exactly when there is no match |
| CombineAll.SceneNumberOfVideoFilename | tools/combine_all.py:76-78 | the scene number read back from a file name the video generator builds for scene `i` is `i` |
| CombineAll.StrLtTotal | tools/combine_all.py:82 | string keys compare as Python strings: distinct strings are ordered one way or the other |
| CombineAll.StrLtTransitive | tools/combine_all.py:82 | string-key comparison is transitive |
| CombineAll.StrLtIrreflexive | tools/combine_all.py:82 | no string is less than itself |
| CombineAll.KeyLtTransitive | tools/combine_all.py:82 | key comparison is transitive |
| CombineAll.KeyLtTotal | tools/combine_all.py:82 | two keys of the same kind are equal or ordered |
| CombineAll.KeyLtIrreflexive | tools/combine_all.py:82 | no key is less than itself |
| CombineAll.SortPermutes | tools/combine_all.py:82 | sorting keeps the same files |
| CombineAll.SortSorted | tools/combine_all.py:82 | sorting a list whose keys are all numbers or all names yields a list ascending by key |
| CombineAll.SortStable | tools/combine_all.py:82 | sorting keeps files with equal keys in their listing order |
| CombineAll.FindVideoFiles | tools/combine_all.py:51-89 | a missing directory gives no files; mixed number and name keys raise the sort's `TypeError`; otherwise the result is the selected files, ascending by key |
| CombineAll.ProjectFilter | tools/combine_all.py:63-65 | with a project name, a file is kept exactly when its lower-cased name contains the lower-cased project name |
| CombineAll.NoProjectKeepsAll | tools/combine_all.py:63 | without a (truthy) project name every listed file is kept |
| CombineAll.FoundAscending | tools/combine_all.py:73-82 | numbered files come out in ascending numeric order |
| CombineAll.FoundStable | tools/combine_all.py:82 | files with the same key keep their listing order |
| CombineAll.SortSwapsPair | tools/combine_all.py:82 | a two-element list out of key order is swapped |
| CombineAll.SceneTwoBeforeSceneTen | tools/combine_all.py:73-82 | the video generator's files for scenes 10 and 2 sort as 2 then 10, as numbers and not as text |
| CombineAll.ConcatLineShape | tools/combine_all.py:99-103 | each concat line is `file '<path>'` and a newline, with every backslash of the path turned into `/` |
| CombineAll.ConcatLineKeepsPlainPath | tools/combine_all.py:102-103 | a path without backslashes appears in its line unchanged |
| CombineAll.CreateConcatFile | tools/combine_all.py:92-105 | one line per video, in the sorted order |
| CombineAll.CombineArgs | tools/combine_all.py:108-139 | both variants start `ffmpeg -f concat -safe 0 -i <list>` and end `-y <output>`; `copy` appears exactly with stream copy, `libx264` and `aac` exactly when re-encoding |
| CombineAll.MusicArgs | tools/combine_all.py:185-198 | the music command: both inputs, the fade filter, the two maps, video copy with AAC audio, `-shortest -y <output>` |
| CombineAll.CleanupTempFiles | tools/combine_all.py:230-246 | every listed file that exists and can be unlinked is removed, the others stay, and `cleaned` counts the removals |
| CombineAll.CombineStage | tools/combine_all.py:340-421 | clean-up runs exactly once with the concat list plus the temporary output when music is used; the exit is 0 exactly when every step succeeds; the combine goes to the temporary file with music and the music step writes the real output |
| CombineAll.RunCombiner | tools/combine_all.py:312-421 | no FFmpeg, no files or a sort error exits 1 before any file is written; one file or a dry run exits 0 without combining; past those, the exit code, commands, concat lines and clean-up are those of the combine stage |
| CombineAll.MusicGoesThroughTempOutput | tools/combine_all.py:352-355 | with music the temporary files are the concat list and `temp_<name>`, which differs from the output |
| LogToAirtable.SceneLabel | tools/log_to_airtable.py:119-124 | definition: `Scene {n} - {title}` |
| LogToAirtable.SelectForDeletion | tools/log_to_airtable.py:82-88 | definition: the project's records for a truthy project name, otherwise every record |
| LogToAirtable.Batches | tools/log_to_airtable.py:94-98 | definition: `ids[i:i+10]` for `i` in `range(0, len(ids), 10)` |
| LogToAirtable.Created | tools/log_to_airtable.py:108-145 | definition: the records of the entries whose create succeeds, in entry order |
| LogToAirtable.SceneId | tools/log_to_airtable.py:119 | definition: `f"Scene {scene_num}"` |
| LogToAirtable.OfProject | tools/log_to_airtable.py:84-85 | definition: the formula `{Project Name}='<name>'`, a record whose project-name text equals the name |
| LogToAirtable.SceneTitle | tools/log_to_airtable.py:120-123 | a description of at most 50 characters is kept; a longer one becomes its first 47 characters and `...`; either way at most 50 characters |
| LogToAirtable.SceneLabelShape | tools/log_to_airtable.py:119-124 | the label is `Scene {n} - ` followed by the title |
| LogToAirtable.LogRecord | tools/log_to_airtable.py:127-133 | a record has exactly the fields Project Name, scene, start_image_prompt and video_prompt, all text |
| LogToAirtable.LoggedRecordAwaitsImage | tools/log_to_airtable.py:119-133 | a logged record has no image or video yet, so the video generator does not pick it up; its project name, `scene` label and image and video prompts are the entry's |
| LogToAirtable.RecordIds | tools/log_to_airtable.py:94 | the ids, one per record, in order |
| LogToAirtable.BatchSizes | tools/log_to_airtable.py:96-97 | every delete batch holds between 1 and 10 ids |
| LogToAirtable.BatchesCover | tools/log_to_airtable.py:96-97 | the batches concatenated are the id list, in order, each id once |
| LogToAirtable.BatchCount | tools/log_to_airtable.py:96 | there are `ceil(n / 10)` batches |
| LogToAirtable.DeleteInBatches | tools/log_to_airtable.py:94-98 | the batches sent are an initial run of the batches, every sent batch but the last succeeded, and the clearing completes exactly when all batches were sent and succeeded |
| LogToAirtable.ClearExistingRecords | tools/log_to_airtable.py:77-105 | a failed listing sends nothing; otherwise the batches of the selected records are sent until one fails, and the failure is swallowed |
| LogToAirtable.SucceededIndicesAscending | tools/log_to_airtable.py:114-145 | the entries whose create succeeds are visited in increasing order |
| LogToAirtable.SucceededIndicesComplete | tools/log_to_airtable.py:136-143 | an index is among the successful ones exactly when it is in range and its create succeeds |
| LogToAirtable.LogRecords | tools/log_to_airtable.py:114-133 | one record per prompt entry, in order |
| LogToAirtable.CreatedAreSuccesses | tools/log_to_airtable.py:136-145 | `records_created` holds the records of the successful entries, one each, in input order |
| LogToAirtable.AllCreated | tools/log_to_airtable.py:136-145 | when every create succeeds there is one record per entry, in order |
| LogToAirtable.LogPrompts | tools/log_to_airtable.py:108-145 | the logging loop returns the created records and never more than one per entry |
| LogToAirtable.ClearThenLog | tools/log_to_airtable.py:207-212 | whatever happens while clearing, the logging result is the same, and the deleted batches are an initial run of the project's batches |
| CreatePrompts.FirstSentence | tools/create_prompts.py:132 | definition: `scene['action'].split('.')[0]` |
| CreatePrompts.ImageTemplate | tools/create_prompts.py:126-135 | definition: the image f-string before `strip()` |
| CreatePrompts.VideoTemplate | tools/create_prompts.py:140-150 | definition: the video f-string before `strip()` |
| CreatePrompts.MakeEntry | tools/create_prompts.py:154-160 | definition: the dictionary appended for one scene, with both prompts stripped |
| CreatePrompts.Entries | tools/create_prompts.py:118-163 | one entry per scene, in scene order (its length is the number of scenes) |
| CreatePrompts.EntriesIndex | tools/create_prompts.py:121-160 | entry `k` is made from scene `k` |
| CreatePrompts.CreatePromptList | tools/create_prompts.py:114-163 | the loop appends one entry per scene, in scene order |
| CreatePrompts.EntryCopiesScene | tools/create_prompts.py:154-159 | scene number, duration and description are copied, and both prompts are stored stripped |
| CreatePrompts.ImagePromptHasFirstSentence | tools/create_prompts.py:132 | the image prompt holds the pose line with the action up to its first `.`, which holds no `.` |
| CreatePrompts.ImagePromptHasLowerLighting | tools/create_prompts.py:135 | the image prompt holds the Details line with the lower-cased lighting |
| CreatePrompts.VideoPromptHasAction | tools/create_prompts.py:142-148 | the video prompt holds the whole action on its Motion details line |
| CreatePrompts.SaveMetadata | tools/create_prompts.py:171-177 | definition: the `metadata` block of `save_prompts`; what it holds for the prompts of an analysis is stated by `CreatePrompts.MetadataCountsScenes` |
| CreatePrompts.MetadataCountsScenes | tools/create_prompts.py:166-177 | saving the prompts built from an analysis gives `total_scenes` equal to the number of analysis scenes, with `total_duration` and `music_sound` copied from the analysis |
| AnalyzeVideo.FenceGroup | tools/analyze_video.py:158-160 | definition: `match.group(1)` of the leftmost fenced-block match, when there is one |
| AnalyzeVideo.FencedYaml | tools/analyze_video.py:155-160 | definition: when the text mentions a fence and the pattern matches, the first group, stripped |
| AnalyzeVideo.DashCandidate | tools/analyze_video.py:173-177 | definition: the text from the first `---`, or the whole text |
| AnalyzeVideo.FenceAt | tools/analyze_video.py:158 | an anchored fence match: the opener (`yaml` tried before `yml`), then the lazy group up to the first closing fence |
| AnalyzeVideo.SearchFence | tools/analyze_video.py:158 | `re.search` finds the leftmost position where the fence pattern matches |
| AnalyzeVideo.ParseToYaml | tools/analyze_video.py:150-193 | an extracted result is valid YAML and a piece of the text; otherwise the raw text is wrapped |
| AnalyzeVideo.FencedYamlIsPiece | tools/analyze_video.py:158-160 | the stripped fenced content is a piece of the analysis text |
| AnalyzeVideo.DashCandidateIsPiece | tools/analyze_video.py:173-177 | the second candidate is a suffix of the text |
| AnalyzeVideo.FencedBlockFirst | tools/analyze_video.py:155-164 | a valid fenced block wins, and the result is the first match's content, stripped |
| AnalyzeVideo.InvalidFenceFallsThrough | tools/analyze_video.py:161-169 | an invalid or missing fenced block falls through to the `---` / `video_analysis:` check |
| AnalyzeVideo.DashSuffix | tools/analyze_video.py:169-181 | with `---` present and a valid suffix, the result is the text from the first `---` |
| AnalyzeVideo.WholeTextWithoutDashes | tools/analyze_video.py:173-181 | with `video_analysis:` but no `---`, a valid text is returned whole |
| AnalyzeVideo.OtherwiseWrapped | tools/analyze_video.py:185-193 | when no check accepts, the raw text is wrapped |
| AnalyzeVideo.NothingValidWraps | tools/analyze_video.py:150-193 | if nothing is valid YAML every text is wrapped |
| VerifySetup.VersionCheckAsWritten | tools/verify_setup.py:18-27 | definition: the version rule as written, `major >= 3 and minor >= 8` |
| VerifySetup.VersionCheck | tools/verify_setup.py:19 | definition: the intended "3.8+" rule, `(major, minor) >= (3, 8)` |
| VerifySetup.KeyMissing | tools/verify_setup.py:105 | definition: `KEY=` does not occur, or `KEY=your_` does |
| VerifySetup.AsWrittenRejectsFourZero | tools/verify_setup.py:22 | the written check rejects Python 4.0, which "3.8+" admits |
| VerifySetup.VersionChecksAgreeOnThree | tools/verify_setup.py:22 | on 3.x the written and the corrected checks agree, and the written one never admits more |
| VerifySetup.VersionCheckMonotone | tools/verify_setup.py:18-27 | the corrected check admits every later version once it admits one |
| VerifySetup.CheckDependencies | tools/verify_setup.py:54-77 | passes exactly when every required package imports |
| VerifySetup.PlaceholderWins | tools/verify_setup.py:105 | a `KEY=your_` placeholder marks the key missing even when a real value also appears |
| VerifySetup.RealValueCounts | tools/verify_setup.py:105 | a key that is set and never set to a placeholder is present |
| VerifySetup.CheckEnvFile | tools/verify_setup.py:79-115 | a missing `.env` fails before any key is checked; otherwise the missing keys are collected in order and the check passes exactly when none is missing |
| VerifySetup.CheckDirectories | tools/verify_setup.py:117-132 | always passes, and reports the directories that exist |
| VerifySetup.Summarize | tools/verify_setup.py:151-156 | `all_passed` ends true exactly when every check passed |
| VerifySetup.RunChecks | tools/verify_setup.py:134-169 | returns 0 exactly when the version, FFmpeg, dependency and `.env` checks all pass, else 1 |

## Left out

- HTTP traffic is not modelled: Kie.ai task creation and polling, the reference-image upload and the video download. Each reply or result is an input.
- Airtable calls (`Api`, `table.all`, `create`, `update`, `batch_delete`) are not modelled. Each one's success is an input, and the table is a list of records.
- The `{Project Name}='…'` formula is not modelled. It becomes equality on the Project Name field, which ignores quoting inside the name.
- The Gemini upload, the image description and the video analysis are left out. They are network calls. The analysis text and the subject description are inputs.
- The PROCESSING wait loop in `upload_video` is left out. It is a network loop.
- FFmpeg runs are not modelled. `check_ffmpeg_installed`, `check_ffmpeg` and each FFmpeg step are booleans. Only the argument lists and the decisions are modelled.
- `time.sleep` and `time.time` are not modelled. A fake clock stands in: elapsed time is the sum of the sleeps, and requests take no time.
- The fixed pauses between scenes (2 s for images, 5 s for videos) are left out. They fall outside any poll's clock.
- `yaml.safe_load` and `yaml.dump` are not modelled. Validity is an uninterpreted predicate, and the dump of the wrapping dictionary is the `Wrapped` result.
- `load_config` and `load_prompts` are left out, and so are `load_analysis`, `load_api_key`, argparse, dotenv, `input()` approval prompts, dry-run listings, test mode and every `print`. They only handle configuration and console I/O.
- A missing key in a prompt entry or analysis scene (`KeyError`) is left out. Entries and scenes are records with every field present.
- Cost arithmetic (`total_cost`, `actual_cost`, `cost` per model) and file sizes are left out. They use floats and only feed messages.
- `KeyboardInterrupt` in the combiner is left out. It is an asynchronous signal.
- Glob order is not modelled: the listing is an input already limited to `*.mp4` files, in glob order.
- `Path.resolve()` is left out; each file's absolute path is an input.
- `PathString` joins directory and name with `/` instead of the platform separator. `FilePath.dir` is taken already in the form `str(path.parent)` prints: no trailing `/`, and the current directory written as the empty string. So `--input-dir outputs/` is taken as `outputs`, which the model does not derive.
- A partially written concat file is not modelled. Either writing the list succeeds, or the write raises before any line counts.
- A final `output_path.stat()` failure after a successful combine is left out. The model treats a combine that succeeded as leaving its output in place.
- `list.sort` is modelled as a stable insertion sort on `seq`, not in place. Python's sort is stable, so for keys that compare consistently both give the same order.
- CombineAll.GetSceneNumber: `\d` matches ASCII digits only, where Python's `\d` also matches other Unicode decimal digits. Case-insensitive matching is ASCII, plus U+017F against `s`, which Python's regex treats as equal; other non-ASCII case folds are left out.
- CombineAll.ProjectFilter: `lower()` is modelled for ASCII letters only.
- CreatePrompts.ImagePromptHasLowerLighting: it requires the lighting text to end in a non-space. Otherwise `strip()` can remove the end of the Details line. Lower-casing is ASCII-only.
- CreatePrompts.ImageTemplate: the lighting in the Details line is lower-cased for ASCII letters only (`Text.Lower`), where Python's `lower()` covers all of Unicode.
- CreatePrompts.MakeEntry: its image prompt is `ImageTemplate`'s, so it has the same ASCII-only lower-casing.
- Records.TextField: a text field is taken to hold text when present. For a field that holds an attachment list, `fields.get(key, default)` returns the list, but the model returns the default.
- KieTasks.CreateTaskResult: a decoded 200 body (`CreateJson`) is `{}` or an object whose `data` is absent or a string map. A truthy non-object body such as `[1]`, or a non-dict `data`, cannot be represented. In the source both raise `AttributeError`, which comes out as "Failed to create task" (tools/generate_images.py:218-239). A non-string `taskId` cannot be represented either.
- LogToAirtable.LogPrompts: `records_created` holds the records Airtable returns, with ids. The model holds the fields that were sent.
- GenerateVideos.GenerateAll: `actual_cost` is not tracked.
- GenerateImages.GenerateAll: each scene's create reply is an input, not tied to the payload sent; `GenerateImages.BuildImagePayload` models the payload alone. The upload of the reference image is left out, and its URL is an input.
- GenerateVideos.GenerateAll: each scene's create reply is an input, not tied to the payload; `GenerateVideos.BuildVideoPayload` models the payload alone.
- VerifySetup.RunChecks: it uses the corrected version check (see Findings). The check as written is `VerifySetup.VersionCheckAsWritten`.

## Findings

| source | as written | input that shows it | evidently intended | confidence | as-written member | corrected member |
|---|---|---|---|---|---|---|
| tools/verify_setup.py:22 | `version.major >= 3 and version.minor >= 8` | Python 4.0 (major 4, minor 0) is rejected | "3.8+": `(major, minor) >= (3, 8)`, true for every 4.x | not executed | VerifySetup.AsWrittenRejectsFourZero | VerifySetup.VersionCheckMonotone |
