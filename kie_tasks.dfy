/**
 * What the two generator scripts share about Kie.ai jobs: how the reply to
 * a create-task request is classified, and how one reply to a status poll
 * decides the next step of the polling loop.
 *
 * The polling loop runs on a fake clock: a request takes no time, so the
 * elapsed time is the sum of the sleeps so far. The replies are an abstract
 * input, `respond(k)` being the reply to the poll that follows `k` earlier polls.
 */
module KieTasks {
  import opened Wrappers

  // ---------------------------------------------------------------------
  // Task creation
  // ---------------------------------------------------------------------

  /** A decoded create-task reply body: `{}`, or a non-empty object with an optional `data` object. */
  datatype CreateJson = EmptyObject | Fields(data: Option<map<string, string>>)

  /** The outcome of the POST: a transport error, or a status, the raw text, and the body if it is JSON. */
  datatype CreateReply =
    | CreateTransportError
    | CreateReply(status: int, text: string, body: Option<CreateJson>)

  datatype CreateError =
    | InsufficientCredits
    | InvalidParameters(detail: string)
    | RateLimited
    | CreationFailed(status: int, detail: string)
    | EmptyResponse
    | NoDataField
    | NoTaskId
    | NetworkError

  /** HTTP statuses that have their own error. */
  predicate SpecialStatus(status: int) {
    status == 402 || status == 422 || status == 429
  }

  /**
   * `create_*_generation_task` from the reply on: the status is checked
   * first, then the body; a body that is not JSON fails `response.json()`,
   * which `requests` reports as a network error.
   */
  function CreateTaskResult(reply: CreateReply): (r: Result<string, CreateError>)
    ensures reply.CreateTransportError? ==> r == Failure(NetworkError)
    ensures reply.CreateReply? && reply.status == 402 ==> r == Failure(InsufficientCredits)
    ensures reply.CreateReply? && reply.status == 422 ==> r == Failure(InvalidParameters(reply.text))
    ensures reply.CreateReply? && reply.status == 429 ==> r == Failure(RateLimited)
    ensures reply.CreateReply? && reply.status != 200 && !SpecialStatus(reply.status) ==>
      r == Failure(CreationFailed(reply.status, reply.text))
    ensures r.Success? <==>
      reply.CreateReply? && reply.status == 200 && reply.body.Some? && reply.body.value.Fields? &&
      reply.body.value.data.Some? && "taskId" in reply.body.value.data.value &&
      reply.body.value.data.value["taskId"] != ""
    ensures r.Success? ==> r.value == reply.body.value.data.value["taskId"]
  {
    match reply
    case CreateTransportError => Failure(NetworkError)
    case CreateReply(status, text, body) =>
      if status == 402 then Failure(InsufficientCredits)
      else if status == 422 then Failure(InvalidParameters(text))
      else if status == 429 then Failure(RateLimited)
      else if status != 200 then Failure(CreationFailed(status, text))
      else match body
        case None => Failure(NetworkError)
        case Some(EmptyObject) => Failure(EmptyResponse)
        case Some(Fields(data)) =>
          if data.None? || data.value == map[] then Failure(NoDataField)
          else if "taskId" !in data.value || data.value["taskId"] == "" then Failure(NoTaskId)
          else Success(data.value["taskId"])
  }

  /**
   * The status the reply must have had, read back from the error: the
   * HTTP errors name their status, and every body error means 200.
   */
  function ImpliedStatus(e: CreateError): Option<int> {
    match e
    case InsufficientCredits => Some(402)
    case InvalidParameters(_) => Some(422)
    case RateLimited => Some(429)
    case CreationFailed(s, _) => Some(s)
    case EmptyResponse => Some(200)
    case NoDataField => Some(200)
    case NoTaskId => Some(200)
    case NetworkError => None
  }

  /** Distinct statuses never share an error: the error tells which status came back. */
  lemma ErrorDeterminesStatus(reply: CreateReply)
    requires reply.CreateReply?
    requires CreateTaskResult(reply).Failure?
    ensures var e := CreateTaskResult(reply).error;
      ImpliedStatus(e).Some? ==> ImpliedStatus(e).value == reply.status
    ensures var e := CreateTaskResult(reply).error;
      ImpliedStatus(e).None? ==> reply.status == 200 && reply.body.None?
  {
  }

  // ---------------------------------------------------------------------
  // Status polls
  // ---------------------------------------------------------------------

  datatype Kind = ImageTask | VideoTask

  /** A decoded JSON value where a `{"resultUrls": [...]}` object is expected. */
  datatype JsonValue = NonObject | Object(resultUrls: seq<string>)

  /**
   * The `resultJson` entry of the status data: absent (the scripts then use
   * the text `{}`), a string that parses or not, or an already decoded value.
   */
  datatype ResultJson = Absent | Text(parsed: Option<JsonValue>) | Decoded(value: JsonValue)

  /**
   * The body of a 200 reply: not JSON at all, JSON whose top level or whose
   * `data` is not an object, or the `data` object's relevant entries.
   */
  datatype PollBody =
    | NotJson
    | NotObject
    | Record(state: Option<string>, resultJson: ResultJson, failCode: Option<string>, failMsg: Option<string>)

  datatype PollResponse = TransportError | Reply(status: int, body: PollBody)

  datatype PollOutcome =
    | Completed(urls: seq<string>)
    | Failed(code: string, message: string)
    | NoResultUrls
    | MalformedResult
    | TimedOut

  /** Why the loop sleeps: the state schedule, a transient error, or a state the image loop does not know. */
  datatype WaitReason = Backoff | Retry | UnknownState

  datatype Step = Done(outcome: PollOutcome) | Wait(reason: WaitReason, seconds: nat)

  const ImageMaxWait := 600
  const VideoMaxWait := 900
  const RetryDelay := 5

  /** The pending states the image loop recognises. */
  const PendingStates: seq<string> := ["waiting", "queuing", "generating"]

  /** The sleep chosen for a still-running job, by elapsed seconds. */
  function Interval(kind: Kind, elapsed: nat): (s: nat)
    ensures kind == ImageTask ==> 3 <= s <= 10
    ensures kind == VideoTask ==> 10 <= s <= 30
  {
    match kind
    case ImageTask => if elapsed < 30 then 3 else if elapsed < 120 then 5 else 10
    case VideoTask => if elapsed < 60 then 10 else if elapsed < 180 then 15 else 30
  }

  /** The schedule never shortens as time passes. */
  lemma IntervalMonotone(kind: Kind, e1: nat, e2: nat)
    requires e1 <= e2
    ensures Interval(kind, e1) <= Interval(kind, e2)
  {
  }

  /** The longest sleep either loop can take. */
  function MaxSleep(kind: Kind): nat {
    match kind
    case ImageTask => 10
    case VideoTask => 30
  }

  /** A reply the loops retry after 5 seconds: a transport error, a non-200 status, or a body that is not JSON. */
  predicate Transient(r: PollResponse) {
    r.TransportError? || r.status != 200 || r.body.NotJson?
  }

  /** A 200 reply whose data carries `state` equal to `st`. */
  predicate StateIs(r: PollResponse, st: string) {
    r.Reply? && r.status == 200 && r.body.Record? && r.body.state == Some(st)
  }

  /** A 200 reply whose data carries a state that is neither `success` nor `fail`. */
  predicate StillRunning(r: PollResponse) {
    r.Reply? && r.status == 200 && r.body.Record? && r.body.state != Some("success") && r.body.state != Some("fail")
  }

  /**
   * The image loop on success: the string is parsed with no handler for a
   * parse error, and an empty URL list is an error.
   */
  function ImageSuccess(rj: ResultJson): PollOutcome {
    match rj
    case Absent => NoResultUrls
    case Text(None) => MalformedResult
    case Text(Some(NonObject)) => MalformedResult
    case Text(Some(Object(urls))) => if urls == [] then NoResultUrls else Completed(urls)
    case Decoded(_) => MalformedResult
  }

  /**
   * The video loop on success: a string is parsed, a decoded object is used
   * as it is, an empty URL list is returned as it is, and a parse error is
   * caught and retried.
   */
  function VideoSuccess(rj: ResultJson): Step {
    match rj
    case Absent => Done(Completed([]))
    case Text(None) => Wait(Retry, RetryDelay)
    case Text(Some(v)) => Done(if v.Object? then Completed(v.resultUrls) else MalformedResult)
    case Decoded(v) => Done(if v.Object? then Completed(v.resultUrls) else MalformedResult)
  }

  /** `data.get('failCode', 'N/A')` and `data.get('failMsg', 'Unknown error')`. */
  function FailOutcome(body: PollBody): PollOutcome
    requires body.Record?
  {
    Failed(body.failCode.GetOr("N/A"), body.failMsg.GetOr("Unknown error"))
  }

  /** One iteration of `poll_task_status`: what a reply, at a given elapsed time, makes the loop do. */
  function PollStep(kind: Kind, r: PollResponse, elapsed: nat): (s: Step)
    ensures s.Wait? ==> s.seconds == (if s.reason == Backoff then Interval(kind, elapsed) else RetryDelay)
    ensures s.Wait? ==> 0 < s.seconds <= MaxSleep(kind)
    ensures s.Done? ==> !s.outcome.TimedOut?
  {
    match r
    case TransportError => Wait(Retry, RetryDelay)
    case Reply(status, body) =>
      if status != 200 then Wait(Retry, RetryDelay)
      else match body
        case NotJson => Wait(Retry, RetryDelay)
        case NotObject => Done(MalformedResult)
        case Record(state, resultJson, _, _) =>
          if state == Some("success") then
            (match kind
             case ImageTask => Done(ImageSuccess(resultJson))
             case VideoTask => VideoSuccess(resultJson))
          else if state == Some("fail") then Done(FailOutcome(body))
          else match kind
            case ImageTask =>
              if state.Some? && state.value in PendingStates then Wait(Backoff, Interval(kind, elapsed))
              else Wait(UnknownState, RetryDelay)
            case VideoTask => Wait(Backoff, Interval(kind, elapsed))
  }

  /**
   * What one iteration does with each kind of reply: transport errors, other
   * statuses and unparsable bodies are retried after the fixed delay; a
   * `fail` state ends the loop with the failure; the pending states (images)
   * or any other state (videos) back off; an image success carries URLs.
   */
  lemma PollStepCases(kind: Kind, r: PollResponse, elapsed: nat)
    ensures var s := PollStep(kind, r, elapsed);
      (Transient(r) ==> s == Wait(Retry, RetryDelay)) &&
      ((s.Done? && s.outcome.Failed?) <==> StateIs(r, "fail")) &&
      (StateIs(r, "fail") ==> s == Done(FailOutcome(r.body))) &&
      (kind == ImageTask ==>
        ((s.Wait? && s.reason == Backoff) <==>
          (r.Reply? && r.status == 200 && r.body.Record? && r.body.state.Some? && r.body.state.value in PendingStates))) &&
      (kind == VideoTask ==> ((s.Wait? && s.reason == Backoff) <==> StillRunning(r))) &&
      (kind == VideoTask ==> !(s.Wait? && s.reason == UnknownState)) &&
      (kind == ImageTask && s.Done? && s.outcome.Completed? ==> s.outcome.urls != [])
  {
  }

  /** A sleep of the loop: why, at what elapsed time, and how long. */
  datatype Sleep = Sleep(reason: WaitReason, at: nat, seconds: nat)

  /** A whole run of the loop: how it ended, its sleeps in order, the polls made and the final clock. */
  datatype PollRun = PollRun(outcome: PollOutcome, sleeps: seq<Sleep>, polls: nat, elapsed: nat)

  /**
   * The loop from a state with `polls` polls made and `elapsed` seconds
   * gone: poll while `elapsed < maxWait`, stop on a final step, else sleep.
   */
  function Run(kind: Kind, respond: nat -> PollResponse, maxWait: nat, polls: nat, elapsed: nat): PollRun
    decreases maxWait - elapsed
  {
    if elapsed >= maxWait then PollRun(TimedOut, [], polls, elapsed)
    else
      match PollStep(kind, respond(polls), elapsed)
      case Done(o) => PollRun(o, [], polls + 1, elapsed)
      case Wait(reason, seconds) =>
        var rest := Run(kind, respond, maxWait, polls + 1, elapsed + seconds);
        PollRun(rest.outcome, [Sleep(reason, elapsed, seconds)] + rest.sleeps, rest.polls, rest.elapsed)
  }

  /** Two runs that end the same way: same outcome, same number of polls, same final clock. */
  predicate SameEnd(a: PollRun, b: PollRun) {
    a.outcome == b.outcome && a.polls == b.polls && a.elapsed == b.elapsed
  }

  function TotalSleep(sleeps: seq<Sleep>): nat {
    if sleeps == [] then 0 else sleeps[0].seconds + TotalSleep(sleeps[1..])
  }

  /** After a sleep, the run is that sleep followed by the run from the later clock. */
  lemma RunAfterWait(kind: Kind, respond: nat -> PollResponse, maxWait: nat, polls: nat, elapsed: nat)
    requires elapsed < maxWait && PollStep(kind, respond(polls), elapsed).Wait?
    ensures var s := PollStep(kind, respond(polls), elapsed);
      var rest := Run(kind, respond, maxWait, polls + 1, elapsed + s.seconds);
      Run(kind, respond, maxWait, polls, elapsed) ==
        PollRun(rest.outcome, [Sleep(s.reason, elapsed, s.seconds)] + rest.sleeps, rest.polls, rest.elapsed)
  {
  }

  /** The accounting of a run carries over to the run with one more sleep in front. */
  lemma AccountingStep(r: PollRun, rest: PollRun, first: Sleep, polls: nat, elapsed: nat)
    requires r == PollRun(rest.outcome, [first] + rest.sleeps, rest.polls, rest.elapsed)
    requires rest.elapsed == elapsed + first.seconds + TotalSleep(rest.sleeps)
    requires rest.polls == polls + 1 + |rest.sleeps| + (if rest.outcome.TimedOut? then 0 else 1)
    ensures r.elapsed == elapsed + TotalSleep(r.sleeps)
    ensures r.polls == polls + |r.sleeps| + (if r.outcome.TimedOut? then 0 else 1)
  {
    assert r.sleeps[1..] == rest.sleeps;
  }

  /** The clock is the sum of the sleeps; every sleep follows a poll, and so does the final step. */
  lemma {:induction false} RunAccounting(kind: Kind, respond: nat -> PollResponse, maxWait: nat, polls: nat, elapsed: nat)
    ensures var r := Run(kind, respond, maxWait, polls, elapsed);
      r.elapsed == elapsed + TotalSleep(r.sleeps) &&
      r.polls == polls + |r.sleeps| + (if r.outcome.TimedOut? then 0 else 1)
    decreases maxWait - elapsed
  {
    if elapsed < maxWait {
      var s := PollStep(kind, respond(polls), elapsed);
      if s.Wait? {
        RunAccounting(kind, respond, maxWait, polls + 1, elapsed + s.seconds);
        RunAfterWait(kind, respond, maxWait, polls, elapsed);
        AccountingStep(Run(kind, respond, maxWait, polls, elapsed), Run(kind, respond, maxWait, polls + 1, elapsed + s.seconds),
                       Sleep(s.reason, elapsed, s.seconds), polls, elapsed);
      }
    }
  }

  /**
   * The loop times out exactly when the clock reaches `maxWait`; it never
   * sleeps once the clock is there, and it overshoots by less than one sleep.
   */
  lemma {:induction false} RunTimeout(kind: Kind, respond: nat -> PollResponse, maxWait: nat, polls: nat, elapsed: nat)
    ensures var r := Run(kind, respond, maxWait, polls, elapsed);
      (r.outcome.TimedOut? <==> r.elapsed >= maxWait) &&
      (forall k :: 0 <= k < |r.sleeps| ==> r.sleeps[k].at < maxWait) &&
      (elapsed < maxWait ==> r.elapsed < maxWait + MaxSleep(kind)) &&
      (elapsed >= maxWait ==> r == PollRun(TimedOut, [], polls, elapsed))
    decreases maxWait - elapsed
  {
    if elapsed < maxWait {
      var s := PollStep(kind, respond(polls), elapsed);
      if s.Wait? {
        RunTimeout(kind, respond, maxWait, polls + 1, elapsed + s.seconds);
        RunAfterWait(kind, respond, maxWait, polls, elapsed);
        var r := Run(kind, respond, maxWait, polls, elapsed);
        var rest := Run(kind, respond, maxWait, polls + 1, elapsed + s.seconds);
        forall k | 0 <= k < |r.sleeps| ensures r.sleeps[k].at < maxWait {
          if k > 0 {
            assert r.sleeps[k] == rest.sleeps[k - 1];
          }
        }
      }
    }
  }

  /** Each sleep starts where the previous one ended. */
  predicate Chained(sleeps: seq<Sleep>) {
    forall k :: 0 <= k < |sleeps| - 1 ==> sleeps[k + 1].at == sleeps[k].at + sleeps[k].seconds
  }

  /** Each sleep is the one the step function chose for the reply it followed. */
  predicate FollowsSchedule(kind: Kind, sleeps: seq<Sleep>) {
    forall k :: 0 <= k < |sleeps| ==>
      sleeps[k].seconds == (if sleeps[k].reason == Backoff then Interval(kind, sleeps[k].at) else RetryDelay)
  }

  /** The sleeps of a run start at the starting clock and each starts where the previous one ended. */
  lemma {:induction false} RunChained(kind: Kind, respond: nat -> PollResponse, maxWait: nat, polls: nat, elapsed: nat)
    ensures var r := Run(kind, respond, maxWait, polls, elapsed);
      (|r.sleeps| > 0 ==> r.sleeps[0].at == elapsed) && Chained(r.sleeps)
    decreases maxWait - elapsed
  {
    if elapsed < maxWait {
      var s := PollStep(kind, respond(polls), elapsed);
      if s.Wait? {
        RunChained(kind, respond, maxWait, polls + 1, elapsed + s.seconds);
        var r := Run(kind, respond, maxWait, polls, elapsed);
        var rest := Run(kind, respond, maxWait, polls + 1, elapsed + s.seconds);
        assert r.sleeps == [Sleep(s.reason, elapsed, s.seconds)] + rest.sleeps;
        forall k | 0 <= k < |r.sleeps| - 1 ensures r.sleeps[k + 1].at == r.sleeps[k].at + r.sleeps[k].seconds {
          assert r.sleeps[k + 1] == rest.sleeps[k];
          if k > 0 {
            assert r.sleeps[k] == rest.sleeps[k - 1];
          }
        }
      }
    }
  }

  /** Sleep `k` is the step that reply `polls + k` produced at the sleep's start. */
  predicate ProducedBy(kind: Kind, respond: nat -> PollResponse, polls: nat, sleeps: seq<Sleep>) {
    forall k :: 0 <= k < |sleeps| ==>
      PollStep(kind, respond(polls + k), sleeps[k].at) == Wait(sleeps[k].reason, sleeps[k].seconds)
  }

  /** Poll `polls + k` of a run produced its sleep `k`. */
  lemma {:induction false} RunSleepSteps(kind: Kind, respond: nat -> PollResponse, maxWait: nat, polls: nat, elapsed: nat)
    ensures ProducedBy(kind, respond, polls, Run(kind, respond, maxWait, polls, elapsed).sleeps)
    decreases maxWait - elapsed
  {
    if elapsed < maxWait {
      var s := PollStep(kind, respond(polls), elapsed);
      if s.Wait? {
        RunSleepSteps(kind, respond, maxWait, polls + 1, elapsed + s.seconds);
        var r := Run(kind, respond, maxWait, polls, elapsed);
        var rest := Run(kind, respond, maxWait, polls + 1, elapsed + s.seconds);
        ProducedByCons(kind, respond, polls, Sleep(s.reason, elapsed, s.seconds), rest.sleeps);
      }
    }
  }

  lemma ProducedByCons(kind: Kind, respond: nat -> PollResponse, polls: nat, first: Sleep, rest: seq<Sleep>)
    requires PollStep(kind, respond(polls), first.at) == Wait(first.reason, first.seconds)
    requires ProducedBy(kind, respond, polls + 1, rest)
    ensures ProducedBy(kind, respond, polls, [first] + rest)
  {
    var all := [first] + rest;
    forall k | 0 < k < |all|
      ensures PollStep(kind, respond(polls + k), all[k].at) == Wait(all[k].reason, all[k].seconds)
    {
      var j := k - 1;
      assert all[k] == rest[j];
      assert polls + k == polls + 1 + j;
    }
  }

  /** A run that did not time out ended on the step its last poll produced, at the final clock. */
  lemma {:induction false} RunFinalStep(kind: Kind, respond: nat -> PollResponse, maxWait: nat, polls: nat, elapsed: nat)
    ensures var r := Run(kind, respond, maxWait, polls, elapsed);
      !r.outcome.TimedOut? ==> PollStep(kind, respond(polls + |r.sleeps|), r.elapsed) == Done(r.outcome)
    decreases maxWait - elapsed
  {
    if elapsed < maxWait {
      var s := PollStep(kind, respond(polls), elapsed);
      if s.Wait? {
        RunFinalStep(kind, respond, maxWait, polls + 1, elapsed + s.seconds);
        var r := Run(kind, respond, maxWait, polls, elapsed);
        var rest := Run(kind, respond, maxWait, polls + 1, elapsed + s.seconds);
        assert |r.sleeps| == 1 + |rest.sleeps|;
        assert polls + |r.sleeps| == polls + 1 + |rest.sleeps|;
      }
    }
  }

  /** Every sleep of a run is the schedule's interval at its start, or the 5-second retry delay. */
  lemma RunFollowsSchedule(kind: Kind, respond: nat -> PollResponse, maxWait: nat, polls: nat, elapsed: nat)
    ensures FollowsSchedule(kind, Run(kind, respond, maxWait, polls, elapsed).sleeps)
  {
    RunSleepSteps(kind, respond, maxWait, polls, elapsed);
    var sleeps := Run(kind, respond, maxWait, polls, elapsed).sleeps;
    forall k | 0 <= k < |sleeps|
      ensures sleeps[k].seconds == (if sleeps[k].reason == Backoff then Interval(kind, sleeps[k].at) else RetryDelay)
    {
      assert PollStep(kind, respond(polls + k), sleeps[k].at) == Wait(sleeps[k].reason, sleeps[k].seconds);
    }
  }

  /** Along a chain of sleeps the clock only moves forward. */
  lemma {:induction false} ChainedOrdered(sleeps: seq<Sleep>, k: nat, l: nat)
    requires Chained(sleeps)
    requires k <= l < |sleeps|
    ensures sleeps[k].at <= sleeps[l].at
    decreases l - k
  {
    if k < l {
      ChainedOrdered(sleeps, k, l - 1);
      assert sleeps[l].at == sleeps[l - 1].at + sleeps[l - 1].seconds;
    }
  }

  /** Over a whole run, a later state-schedule sleep is never shorter than an earlier one. */
  lemma BackoffNonDecreasing(kind: Kind, respond: nat -> PollResponse, maxWait: nat, polls: nat, elapsed: nat)
    ensures var r := Run(kind, respond, maxWait, polls, elapsed);
      forall k, l :: 0 <= k < l < |r.sleeps| && r.sleeps[k].reason == Backoff && r.sleeps[l].reason == Backoff ==>
        r.sleeps[k].seconds <= r.sleeps[l].seconds
  {
    RunChained(kind, respond, maxWait, polls, elapsed);
    RunFollowsSchedule(kind, respond, maxWait, polls, elapsed);
    var r := Run(kind, respond, maxWait, polls, elapsed);
    forall k, l | 0 <= k < l < |r.sleeps| && r.sleeps[k].reason == Backoff && r.sleeps[l].reason == Backoff
      ensures r.sleeps[k].seconds <= r.sleeps[l].seconds
    {
      ChainedOrdered(r.sleeps, k, l);
      IntervalMonotone(kind, r.sleeps[k].at, r.sleeps[l].at);
    }
  }

  /** The image loop never completes with an empty URL list. */
  lemma {:induction false} ImageCompletedNonEmpty(respond: nat -> PollResponse, maxWait: nat, polls: nat, elapsed: nat)
    ensures var r := Run(ImageTask, respond, maxWait, polls, elapsed);
      r.outcome.Completed? ==> r.outcome.urls != []
    decreases maxWait - elapsed
  {
    if elapsed < maxWait {
      var s := PollStep(ImageTask, respond(polls), elapsed);
      if s.Wait? {
        ImageCompletedNonEmpty(respond, maxWait, polls + 1, elapsed + s.seconds);
      }
    }
  }

  /** A reply that is still generating, and one that has finished with one URL. */
  const Generating := Reply(200, Record(Some("generating"), Absent, None, None))
  const Finished := Reply(200, Record(Some("success"), Text(Some(Object(["https://cdn/out.png"]))), None, None))

  /** Two `generating` polls then `success`: two 3-second sleeps, three polls, a completed job. */
  lemma ImageCompletesOnThirdPoll()
    ensures Run(ImageTask, (k: nat) => if k < 2 then Generating else Finished, ImageMaxWait, 0, 0) ==
      PollRun(Completed(["https://cdn/out.png"]), [Sleep(Backoff, 0, 3), Sleep(Backoff, 3, 3)], 3, 6)
  {
    var respond := (k: nat) => if k < 2 then Generating else Finished;
    assert Run(ImageTask, respond, ImageMaxWait, 2, 6) == PollRun(Completed(["https://cdn/out.png"]), [], 3, 6);
    assert Run(ImageTask, respond, ImageMaxWait, 1, 3).sleeps == [Sleep(Backoff, 3, 3)];
  }

  /** Two server errors then success: the video loop retries twice after 5 seconds each, never giving up. */
  lemma VideoRetriesServerErrors()
    ensures Run(VideoTask, (k: nat) => if k < 2 then Reply(500, NotJson) else Finished, VideoMaxWait, 0, 0) ==
      PollRun(Completed(["https://cdn/out.png"]), [Sleep(Retry, 0, 5), Sleep(Retry, 5, 5)], 3, 10)
  {
    var respond := (k: nat) => if k < 2 then Reply(500, NotJson) else Finished;
    assert Run(VideoTask, respond, VideoMaxWait, 2, 10) == PollRun(Completed(["https://cdn/out.png"]), [], 3, 10);
    assert Run(VideoTask, respond, VideoMaxWait, 1, 5).sleeps == [Sleep(Retry, 5, 5)];
  }

  /** A job that never finishes: the video loop gives up once the clock reaches 900 seconds. */
  lemma VideoTimesOut()
    ensures var r := Run(VideoTask, (k: nat) => Generating, VideoMaxWait, 0, 0);
      r.outcome == TimedOut && 900 <= r.elapsed < 930
  {
    RunTimeout(VideoTask, (k: nat) => Generating, VideoMaxWait, 0, 0);
    ImageOrVideoNeverFinishes(VideoTask, (k: nat) => Generating, VideoMaxWait, 0, 0);
  }

  /** When every reply says the job is still running, the only way out is the timeout. */
  lemma {:induction false} ImageOrVideoNeverFinishes(kind: Kind, respond: nat -> PollResponse, maxWait: nat, polls: nat, elapsed: nat)
    requires forall k :: polls <= k ==> respond(k) == Generating
    ensures Run(kind, respond, maxWait, polls, elapsed).outcome == TimedOut
    decreases maxWait - elapsed
  {
    if elapsed < maxWait {
      var s := PollStep(kind, respond(polls), elapsed);
      assert s.Wait?;
      ImageOrVideoNeverFinishes(kind, respond, maxWait, polls + 1, elapsed + s.seconds);
    }
  }
}
