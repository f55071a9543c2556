/**
 * The Airtable logger: clearing the project's old rows in batches of ten,
 * and one new row per prompt entry with a fixed set of fields. The table
 * is an input; each create and each batch delete either succeeds or
 * raises, as the given functions say.
 */
module LogToAirtable {
  import opened Wrappers
  import opened Text
  import opened Seqs
  import opened Records
  import opened CreatePrompts
  import GenerateVideos

  // ---------------------------------------------------------------------
  // The scene label and the record of one prompt
  // ---------------------------------------------------------------------

  const TitleLimit := 50

  /** The description, or its first 47 characters and `...` when it is longer than 50. */
  function SceneTitle(desc: string): (r: string)
    ensures |r| <= TitleLimit
    ensures |desc| <= TitleLimit ==> r == desc
    ensures |desc| > TitleLimit ==> |r| == TitleLimit && IsPrefix(r[..47], desc) && r[47..] == "..."
  {
    if |desc| > TitleLimit then desc[..47] + "..." else desc
  }

  /** `Scene {n}`. */
  function SceneId(n: int): string {
    "Scene " + IntToString(n)
  }

  /** `Scene {n} - {title}`. */
  function SceneLabel(n: int, desc: string): string {
    SceneId(n) + " - " + SceneTitle(desc)
  }

  /** The label is the scene id, ` - `, and the title, so it is at most 53 characters longer than the id. */
  lemma SceneLabelShape(n: int, desc: string)
    ensures var full := SceneLabel(n, desc);
      var head := SceneId(n) + " - ";
      IsPrefix(head, full) && full[|head|..] == SceneTitle(desc) &&
      |full| <= |SceneId(n)| + 3 + TitleLimit
  {
    var full := SceneLabel(n, desc);
    var head := SceneId(n) + " - ";
    assert full == head + SceneTitle(desc);
    assert full[..|head|] == head;
  }

  /** The fields of the record created for one prompt entry. */
  function LogRecord(projectName: string, entry: PromptEntry): (r: Fields)
    ensures r.Keys == {ProjectNameField, SceneField, ImagePromptField, VideoPromptField}
    ensures forall key :: key in r ==> r[key].Str?
  {
    map[ProjectNameField := Str(projectName),
        SceneField := Str(SceneLabel(entry.sceneNumber, entry.description)),
        ImagePromptField := Str(entry.imagePrompt),
        VideoPromptField := Str(entry.videoPrompt)]
  }

  /**
   * A logged row carries no attachments: the video generator does not
   * pick it up, and the image generator reads back the logged prompt.
   */
  lemma LoggedRecordAwaitsImage(id: string, projectName: string, entry: PromptEntry)
    ensures var record := AirRecord(id, LogRecord(projectName, entry));
      StartImageField !in record.fields && SceneVideoField !in record.fields &&
      !GenerateVideos.IsReady(record) &&
      TextField(record.fields, ImagePromptField, "") == entry.imagePrompt &&
      TextField(record.fields, VideoPromptField, "") == entry.videoPrompt &&
      TextField(record.fields, ProjectNameField, "") == projectName &&
      TextField(record.fields, SceneField, "") == SceneLabel(entry.sceneNumber, entry.description)
  {
  }

  // ---------------------------------------------------------------------
  // clear_existing_records
  // ---------------------------------------------------------------------

  const BatchSize := 10

  /** `{Project Name}='<name>'`, read as equality of the field's text with the name. */
  function OfProject(projectName: string): AirRecord -> bool {
    (r: AirRecord) => TextField(r.fields, ProjectNameField, "") == projectName
  }

  /** The records `table.all` returns: the project's records for a non-empty name, else all. */
  function SelectForDeletion(table: seq<AirRecord>, projectName: Option<string>): seq<AirRecord> {
    if projectName.Some? && projectName.value != "" then Filter(table, OfProject(projectName.value)) else table
  }

  /** `[record['id'] for record in records]`. */
  function RecordIds(records: seq<AirRecord>): (r: seq<string>)
    ensures |r| == |records|
    ensures forall k :: 0 <= k < |records| ==> r[k] == records[k].id
  {
    seq(|records|, k requires 0 <= k < |records| => records[k].id)
  }

  /** `ids[i:i+10]` for `i` in `range(start, len(ids), 10)`. */
  function BatchesFrom(ids: seq<string>, start: nat): seq<seq<string>>
    decreases |ids| - start
  {
    if start >= |ids| then []
    else [ids[start..if start + BatchSize <= |ids| then start + BatchSize else |ids|]] + BatchesFrom(ids, start + BatchSize)
  }

  function Batches(ids: seq<string>): seq<seq<string>> {
    BatchesFrom(ids, 0)
  }

  /** Sending one more batch moves it from the remaining batches to the sent ones. */
  lemma SendStep(all: seq<seq<string>>, sent: seq<seq<string>>, ids: seq<string>, i: nat, end: nat)
    requires i < |ids| && end == (if i + BatchSize <= |ids| then i + BatchSize else |ids|)
    requires sent + BatchesFrom(ids, i) == all
    ensures (sent + [ids[i..end]]) + BatchesFrom(ids, i + BatchSize) == all
    ensures all[..|sent| + 1] == sent + [ids[i..end]]
  {
    assert BatchesFrom(ids, i) == [ids[i..end]] + BatchesFrom(ids, i + BatchSize);
    assert (sent + [ids[i..end]]) + BatchesFrom(ids, i + BatchSize) == sent + BatchesFrom(ids, i);
  }

  /** Every batch holds between one and ten ids. */
  lemma {:induction false} BatchSizes(ids: seq<string>, start: nat)
    ensures forall k :: 0 <= k < |BatchesFrom(ids, start)| ==> 1 <= |BatchesFrom(ids, start)[k]| <= BatchSize
    decreases |ids| - start
  {
    if start < |ids| {
      BatchSizes(ids, start + BatchSize);
    }
  }

  /** The batches, put back together, are the ids from `start` on, in order. */
  lemma {:induction false} BatchesCover(ids: seq<string>, start: nat)
    requires start <= |ids|
    ensures Flatten(BatchesFrom(ids, start)) == ids[start..]
    decreases |ids| - start
  {
    if start < |ids| {
      var end := if start + BatchSize <= |ids| then start + BatchSize else |ids|;
      FlattenCons(ids[start..end], BatchesFrom(ids, start + BatchSize));
      if end < |ids| {
        BatchesCover(ids, end);
        assert ids[start..] == ids[start..end] + ids[end..];
      } else {
        assert BatchesFrom(ids, start + BatchSize) == [];
      }
    }
  }

  /** There are `ceil(n / 10)` batches. */
  lemma {:induction false} BatchCount(ids: seq<string>, start: nat)
    requires start <= |ids|
    ensures |BatchesFrom(ids, start)| == (|ids| - start + BatchSize - 1) / BatchSize
    decreases |ids| - start
  {
    if start < |ids| && start + BatchSize <= |ids| {
      BatchCount(ids, start + BatchSize);
    }
  }

  /**
   * `clear_existing_records`: list the records to delete, then delete their
   * ids ten at a time. Any exception (from the listing or from a batch
   * delete) ends the clearing and is swallowed; `sent` are the batches
   * handed to `batch_delete`, the last of them the failing one when
   * clearing stops early.
   */
  method ClearExistingRecords(table: seq<AirRecord>, projectName: Option<string>, listSucceeds: bool,
                              deleteSucceeds: nat -> bool)
    returns (sent: seq<seq<string>>, completed: bool)
    ensures !listSucceeds ==> sent == [] && !completed
    ensures listSucceeds ==>
      ClearOutcome(Batches(RecordIds(SelectForDeletion(table, projectName))), sent, completed, deleteSucceeds)
  {
    if !listSucceeds {
      return [], false;
    }
    var records := SelectForDeletion(table, projectName);
    sent, completed := DeleteInBatches(RecordIds(records), deleteSucceeds);
  }

  /** The batch loop of `clear_existing_records`: delete `ids` ten at a time, stopping at the first failure. */
  method DeleteInBatches(ids: seq<string>, deleteSucceeds: nat -> bool)
    returns (sent: seq<seq<string>>, completed: bool)
    ensures ClearOutcome(Batches(ids), sent, completed, deleteSucceeds)
  {
    sent := [];
    ghost var all := Batches(ids);
    var i := 0;
    while i < |ids|
      invariant sent + BatchesFrom(ids, i) == all
      invariant forall k :: 0 <= k < |sent| ==> deleteSucceeds(k)
      decreases |ids| - i
    {
      var end := if i + BatchSize <= |ids| then i + BatchSize else |ids|;
      SendStep(all, sent, ids, i, end);
      sent := sent + [ids[i..end]];
      if !deleteSucceeds(|sent| - 1) {
        StoppedAtFailure(all, sent, deleteSucceeds);
        return sent, false;
      }
      i := i + BatchSize;
    }
    assert BatchesFrom(ids, i) == [];
    assert sent == all;
    AllBatchesSent(all, deleteSucceeds);
    completed := true;
  }

  /**
   * What clearing ends with, given all the batches: the batches sent are an
   * initial run of them, every one before the last was deleted, clearing
   * completed exactly when every batch was sent and deleted, and an early
   * stop happened at a failed batch.
   */
  predicate ClearOutcome(all: seq<seq<string>>, sent: seq<seq<string>>, completed: bool, deleteSucceeds: nat -> bool) {
    |sent| <= |all| && sent == all[..|sent|] &&
    (forall k :: 0 <= k < |sent| - 1 ==> deleteSucceeds(k)) &&
    (completed <==> sent == all && forall k :: 0 <= k < |all| ==> deleteSucceeds(k)) &&
    (!completed ==> sent != [] && !deleteSucceeds(|sent| - 1))
  }

  /** Stopping at the first failed batch is a clearing outcome. */
  lemma StoppedAtFailure(all: seq<seq<string>>, sent: seq<seq<string>>, deleteSucceeds: nat -> bool)
    requires sent != [] && |sent| <= |all| && all[..|sent|] == sent
    requires forall k :: 0 <= k < |sent| - 1 ==> deleteSucceeds(k)
    requires !deleteSucceeds(|sent| - 1)
    ensures ClearOutcome(all, sent, false, deleteSucceeds)
  {
    assert |sent| - 1 < |all|;
  }

  /** Deleting every batch is the completed clearing outcome. */
  lemma AllBatchesSent(all: seq<seq<string>>, deleteSucceeds: nat -> bool)
    requires forall k :: 0 <= k < |all| ==> deleteSucceeds(k)
    ensures ClearOutcome(all, all, true, deleteSucceeds)
  {
    assert all[..|all|] == all;
  }

  // ---------------------------------------------------------------------
  // log_prompts_to_airtable
  // ---------------------------------------------------------------------

  /** The indices below `n` whose create succeeds, ascending. */
  function SucceededIndices(n: nat, createSucceeds: nat -> bool): (r: seq<nat>)
    ensures forall j :: 0 <= j < |r| ==> r[j] < n
  {
    if n == 0 then [] else SucceededIndices(n - 1, createSucceeds) + (if createSucceeds(n - 1) then [n - 1] else [])
  }

  lemma SucceededIndicesStep(n: nat, createSucceeds: nat -> bool)
    requires n > 0
    ensures SucceededIndices(n, createSucceeds) ==
      SucceededIndices(n - 1, createSucceeds) + (if createSucceeds(n - 1) then [n - 1] else [])
  {
  }

  /** The successful indices are strictly ascending. */
  lemma {:induction false} SucceededIndicesAscending(n: nat, createSucceeds: nat -> bool)
    ensures var idx := SucceededIndices(n, createSucceeds);
      forall j, j' :: 0 <= j < j' < |idx| ==> idx[j] < idx[j']
  {
    if n > 0 {
      SucceededIndicesAscending(n - 1, createSucceeds);
      SucceededIndicesStep(n, createSucceeds);
      var before := SucceededIndices(n - 1, createSucceeds);
      var idx := before + (if createSucceeds(n - 1) then [n - 1] else []);
      forall j, j' | 0 <= j < j' < |idx| ensures idx[j] < idx[j'] {
        assert idx[j] == before[j];
      }
    }
  }

  /** The successful indices are exactly the indices below `n` whose create succeeds. */
  lemma {:induction false} SucceededIndicesComplete(n: nat, createSucceeds: nat -> bool)
    ensures forall k :: k in SucceededIndices(n, createSucceeds) <==> 0 <= k < n && createSucceeds(k)
  {
    if n > 0 {
      SucceededIndicesComplete(n - 1, createSucceeds);
      SucceededIndicesStep(n, createSucceeds);
    }
  }

  /** The elements among the first `n` of `xs` whose position passes `ok`, in order. */
  function Picked<T>(xs: seq<T>, ok: nat -> bool, n: nat): seq<T>
    requires n <= |xs|
  {
    if n == 0 then [] else Picked(xs, ok, n - 1) + (if ok(n - 1) then [xs[n - 1]] else [])
  }

  /** The picked elements are those at the successful positions, one each and in order. */
  lemma {:induction false} PickedAtSuccesses<T>(xs: seq<T>, ok: nat -> bool, n: nat)
    requires n <= |xs|
    ensures var picked := Picked(xs, ok, n);
      var idx := SucceededIndices(n, ok);
      |picked| == |idx| && forall j :: 0 <= j < |idx| ==> picked[j] == xs[idx[j]]
  {
    if n > 0 {
      PickedAtSuccesses(xs, ok, n - 1);
      PickedStep(xs, ok, n);
      SucceededIndicesStep(n, ok);
      if ok(n - 1) {
        AppendBoth(Picked(xs, ok, n - 1), SucceededIndices(n - 1, ok), xs, n - 1);
      }
    }
  }

  lemma PickedStep<T>(xs: seq<T>, ok: nat -> bool, n: nat)
    requires 0 < n <= |xs|
    ensures Picked(xs, ok, n) == Picked(xs, ok, n - 1) + (if ok(n - 1) then [xs[n - 1]] else [])
  {
  }

  /** Appending `xs[i]` and `i` keeps the picked elements at their indices. */
  lemma AppendBoth<T>(picked: seq<T>, idx: seq<nat>, xs: seq<T>, i: nat)
    requires i < |xs| && |picked| == |idx|
    requires forall j :: 0 <= j < |idx| ==> idx[j] < |xs| && picked[j] == xs[idx[j]]
    ensures var p := picked + [xs[i]];
      var q := idx + [i];
      |p| == |q| && forall j :: 0 <= j < |q| ==> q[j] < |xs| && p[j] == xs[q[j]]
  {
    var p := picked + [xs[i]];
    var q := idx + [i];
    forall j | 0 <= j < |q| ensures q[j] < |xs| && p[j] == xs[q[j]] {
      if j < |idx| {
        assert q[j] == idx[j] && p[j] == picked[j];
      }
    }
  }

  /** The record each entry would create, in entry order. */
  function LogRecords(projectName: string, prompts: seq<PromptEntry>): (r: seq<Fields>)
    ensures |r| == |prompts|
    ensures forall k :: 0 <= k < |prompts| ==> r[k] == LogRecord(projectName, prompts[k])
  {
    seq(|prompts|, k requires 0 <= k < |prompts| => LogRecord(projectName, prompts[k]))
  }

  /** The records created for the first `n` entries. */
  function Created(prompts: seq<PromptEntry>, projectName: string, createSucceeds: nat -> bool, n: nat): seq<Fields>
    requires n <= |prompts|
  {
    Picked(LogRecords(projectName, prompts), createSucceeds, n)
  }

  /** The created records are those of the successful entries, one each and in input order. */
  lemma CreatedAreSuccesses(prompts: seq<PromptEntry>, projectName: string, createSucceeds: nat -> bool, n: nat)
    requires n <= |prompts|
    ensures var created := Created(prompts, projectName, createSucceeds, n);
      var idx := SucceededIndices(n, createSucceeds);
      |created| == |idx| && forall j :: 0 <= j < |idx| ==> created[j] == LogRecord(projectName, prompts[idx[j]])
  {
    PickedAtSuccesses(LogRecords(projectName, prompts), createSucceeds, n);
  }

  /** When every create succeeds, the successful indices are all of `0 .. n - 1`. */
  lemma {:induction false} AllSucceeded(n: nat, createSucceeds: nat -> bool)
    requires forall k :: 0 <= k < n ==> createSucceeds(k)
    ensures var idx := SucceededIndices(n, createSucceeds);
      |idx| == n && forall k :: 0 <= k < n ==> idx[k] == k
  {
    if n > 0 {
      AllSucceeded(n - 1, createSucceeds);
      var before := SucceededIndices(n - 1, createSucceeds);
      var idx := before + [n - 1];
      assert SucceededIndices(n, createSucceeds) == idx;
      forall k | 0 <= k < n ensures idx[k] == k {
        if k < n - 1 {
          assert idx[k] == before[k];
        }
      }
    }
  }

  /** When every create succeeds, there is one record per entry, in order. */
  lemma AllCreated(prompts: seq<PromptEntry>, projectName: string, createSucceeds: nat -> bool, n: nat)
    requires n <= |prompts|
    requires forall k :: 0 <= k < n ==> createSucceeds(k)
    ensures var created := Created(prompts, projectName, createSucceeds, n);
      |created| == n && forall k :: 0 <= k < n ==> created[k] == LogRecord(projectName, prompts[k])
  {
    CreatedAreSuccesses(prompts, projectName, createSucceeds, n);
    AllSucceeded(n, createSucceeds);
  }

  /** The loop of `log_prompts_to_airtable`: a failed create is reported and skipped. */
  method LogPrompts(prompts: seq<PromptEntry>, projectName: string, createSucceeds: nat -> bool)
    returns (recordsCreated: seq<Fields>)
    ensures recordsCreated == Created(prompts, projectName, createSucceeds, |prompts|)
    ensures |recordsCreated| <= |prompts|
  {
    recordsCreated := [];
    for i := 0 to |prompts|
      invariant recordsCreated == Created(prompts, projectName, createSucceeds, i)
      invariant |recordsCreated| <= i
    {
      var entry := prompts[i];
      var record := map[ProjectNameField := Str(projectName),
                         SceneField := Str(SceneLabel(entry.sceneNumber, entry.description)),
                         ImagePromptField := Str(entry.imagePrompt),
                         VideoPromptField := Str(entry.videoPrompt)];
      assert record == LogRecords(projectName, prompts)[i];
      if createSucceeds(i) {
        recordsCreated := recordsCreated + [record];
      }
    }
  }

  /**
   * The logger's `main` with `--clear`: clear first, then log. Whatever
   * happens while clearing, every entry is still offered to `create`.
   */
  method ClearThenLog(table: seq<AirRecord>, prompts: seq<PromptEntry>, projectName: string, listSucceeds: bool,
                      deleteSucceeds: nat -> bool, createSucceeds: nat -> bool)
    returns (sent: seq<seq<string>>, recordsCreated: seq<Fields>)
    ensures recordsCreated == Created(prompts, projectName, createSucceeds, |prompts|)
    ensures listSucceeds ==> IsBatchPrefix(sent, Batches(RecordIds(SelectForDeletion(table, Some(projectName)))))
  {
    var completed;
    sent, completed := ClearExistingRecords(table, Some(projectName), listSucceeds, deleteSucceeds);
    recordsCreated := LogPrompts(prompts, projectName, createSucceeds);
  }

  /** `sent` is an initial run of `all`. */
  predicate IsBatchPrefix(sent: seq<seq<string>>, all: seq<seq<string>>) {
    |sent| <= |all| && sent == all[..|sent|]
  }
}
