/**
 * `parse_to_yaml` of the video analyser: turn the model's answer into the
 * YAML text that is saved. Whether a text is valid YAML (`yaml.safe_load`
 * succeeds) is the predicate `valid`; `yaml.dump` of the fallback
 * dictionary is represented by the `Wrapped` result.
 */
module AnalyzeVideo {
  import opened Wrappers
  import opened Text

  /** What `parse_to_yaml` returns: a piece of the analysis text, or the dump of the wrapping dictionary. */
  datatype ParseResult = Extracted(yaml: string) | Wrapped(raw: string)

  /** The `note` of the wrapping dictionary. */
  const WrapNote := "Analysis returned in text format - may need manual parsing"

  const YamlFence := "```yaml\n"
  const YmlFence := "```yml\n"
  const ClosingFence := "\n```"

  /** An opening fence at `i` whose group starts at `j`; `a?` tries `yaml` first. */
  predicate OpensAt(text: string, i: nat, j: nat) {
    (OccursAt(text, YamlFence, i) && j == i + |YamlFence|) ||
    (!OccursAt(text, YamlFence, i) && OccursAt(text, YmlFence, i) && j == i + |YmlFence|)
  }

  /**
   * `` ```ya?ml\n(.*?)\n``` `` (with DOTALL) anchored at `i`: where the
   * group starts and ends. The opener decides where the group starts, and
   * the lazy group ends at the first closing fence after it.
   */
  function FenceAt(text: string, i: nat): (r: Option<(nat, nat)>)
    ensures r.Some? ==>
      var (j, k) := r.value;
      OpensAt(text, i, j) && j <= k && OccursAt(text, ClosingFence, k) &&
      forall m :: j <= m < k ==> !OccursAt(text, ClosingFence, m)
  {
    var j := if OccursAt(text, YamlFence, i) then i + |YamlFence|
             else if OccursAt(text, YmlFence, i) then i + |YmlFence| else -1;
    if j < 0 then None
    else
      var k := FindFrom(text, ClosingFence, j);
      if k < 0 then None else Some((j, k))
  }

  /** `re.search` for the fence: the leftmost index where it matches. */
  function SearchFence(text: string, i: nat): (r: Option<nat>)
    ensures r.Some? ==>
      i <= r.value <= |text| && FenceAt(text, r.value).Some? &&
      forall m :: i <= m < r.value ==> FenceAt(text, m).None?
    ensures r.None? ==> forall m :: i <= m <= |text| ==> FenceAt(text, m).None?
    decreases |text| - i
  {
    if i > |text| then None
    else if FenceAt(text, i).Some? then Some(i)
    else SearchFence(text, i + 1)
  }

  /** `match.group(1)` of the leftmost match. */
  function FenceGroup(text: string): Option<string> {
    match SearchFence(text, 0)
    case None => None
    case Some(i) =>
      var (j, k) := FenceAt(text, i).value;
      Some(text[j..k])
  }

  /** The fenced block's content, stripped, when the text mentions a fence and the pattern matches. */
  function FencedYaml(text: string): Option<string> {
    if !(Contains(text, "```yaml") || Contains(text, "```yml")) then None
    else
      match FenceGroup(text)
      case None => None
      case Some(group) => Some(Strip(group))
  }

  /** The candidate of the second check: the text from the first `---`, or the whole text. */
  function DashCandidate(text: string): string {
    var start := Find(text, "---");
    if start != -1 then text[start..] else text
  }

  /** `parse_to_yaml`. */
  function ParseToYaml(text: string, valid: string -> bool): (r: ParseResult)
    ensures r.Extracted? ==> valid(r.yaml) && Contains(text, r.yaml)
    ensures r.Wrapped? ==> r.raw == text
  {
    var fenced := FencedYaml(text);
    if fenced.Some? && valid(fenced.value) then
      FencedYamlIsPiece(text);
      Extracted(fenced.value)
    else if (Contains(text, "---") || Contains(text, "video_analysis:")) && valid(DashCandidate(text)) then
      DashCandidateIsPiece(text);
      Extracted(DashCandidate(text))
    else Wrapped(text)
  }

  /** The stripped fenced content is a piece of the text. */
  lemma FencedYamlIsPiece(text: string)
    requires FencedYaml(text).Some?
    ensures Contains(text, FencedYaml(text).value)
  {
    var i := SearchFence(text, 0).value;
    var (j, k) := FenceAt(text, i).value;
    StripOfSlice(text, j, k);
  }

  /** The second check's candidate is a suffix of the text. */
  lemma DashCandidateIsPiece(text: string)
    ensures Contains(text, DashCandidate(text))
  {
    var start := Find(text, "---");
    if start != -1 {
      assert OccursAt(text, text[start..], start);
      ContainsWitness(text, text[start..], start);
    } else {
      assert OccursAt(text, text, 0);
      ContainsWitness(text, text, 0);
    }
  }

  /** A valid fenced block wins: the result is the first match's group, stripped. */
  lemma FencedBlockFirst(text: string, valid: string -> bool)
    requires FenceGroup(text).Some?
    requires valid(Strip(FenceGroup(text).value))
    ensures ParseToYaml(text, valid) == Extracted(Strip(FenceGroup(text).value))
  {
    var i := SearchFence(text, 0).value;
    if OccursAt(text, YamlFence, i) {
      OccursPrefix(text, YamlFence, "```yaml", i);
      ContainsWitness(text, "```yaml", i);
    } else {
      OccursPrefix(text, YmlFence, "```yml", i);
      ContainsWitness(text, "```yml", i);
    }
  }

  /** An invalid (or missing) fenced block falls through to the `---` / `video_analysis:` check. */
  lemma InvalidFenceFallsThrough(text: string, valid: string -> bool)
    requires FencedYaml(text).None? || !valid(FencedYaml(text).value)
    ensures ParseToYaml(text, valid) ==
      if (Contains(text, "---") || Contains(text, "video_analysis:")) && valid(DashCandidate(text))
      then Extracted(DashCandidate(text)) else Wrapped(text)
  {
  }

  /** With `---` in the text and a valid suffix, the result is the text from the first `---`. */
  lemma DashSuffix(text: string, valid: string -> bool)
    requires FencedYaml(text).None? || !valid(FencedYaml(text).value)
    requires Contains(text, "---")
    requires valid(text[Find(text, "---")..])
    ensures ParseToYaml(text, valid) == Extracted(text[Find(text, "---")..])
    ensures IsPrefix("---", ParseToYaml(text, valid).yaml)
  {
  }

  /** With `video_analysis:` but no `---`, a valid text is returned whole. */
  lemma WholeTextWithoutDashes(text: string, valid: string -> bool)
    requires FencedYaml(text).None? || !valid(FencedYaml(text).value)
    requires !Contains(text, "---") && Contains(text, "video_analysis:")
    requires valid(text)
    ensures ParseToYaml(text, valid) == Extracted(text)
  {
  }

  /** When no check accepts, the raw text is wrapped. */
  lemma OtherwiseWrapped(text: string, valid: string -> bool)
    requires FencedYaml(text).None? || !valid(FencedYaml(text).value)
    requires !(Contains(text, "---") || Contains(text, "video_analysis:")) || !valid(DashCandidate(text))
    ensures ParseToYaml(text, valid) == Wrapped(text)
  {
  }

  /** If nothing is valid YAML, the text is always wrapped, whatever it holds. */
  lemma NothingValidWraps(text: string, valid: string -> bool)
    requires forall s :: !valid(s)
    ensures ParseToYaml(text, valid) == Wrapped(text)
  {
  }
}
