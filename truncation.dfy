/**
 * `truncate_prompt`, which both generator scripts carry in identical form
 * (they differ only in the default limit). A prompt longer than the limit
 * is cut back to whole `.`-separated sentences within `max_length - 50`
 * characters; if that leaves fewer than 50 characters it is hard-cut to
 * `max_length - 3` characters followed by `...`, and the result is stripped.
 */
module PromptTruncation {
  import opened Text

  const ImageDefaultMaxLength := 1000
  const VideoDefaultMaxLength := 10000

  /** Room kept free at the end of the budget for whole sentences. */
  const Reserve := 50

  /**
   * The greedy sentence packer: append whole sentences, each followed by
   * `.`, while the running text plus the next sentence and its `.` fits
   * within `budget`; stop at the first sentence that does not fit.
   */
  function Pack(sentences: seq<string>, acc: string, budget: int): string {
    if sentences == [] then acc
    else if |acc| + |sentences[0]| + 1 <= budget then Pack(sentences[1..], acc + sentences[0] + ".", budget)
    else acc
  }

  /** The text before the final `strip()`. */
  function Unstripped(prompt: string, maxLength: int): string {
    var packed := Pack(Split(prompt, '.'), "", maxLength - Reserve);
    if packed == [] || |packed| < Reserve then SlicePrefix(prompt, maxLength - 3) + "..." else packed
  }

  /** What `truncate_prompt(prompt, max_length)` returns. */
  function Truncated(prompt: string, maxLength: int): string {
    if |prompt| <= maxLength then prompt else Strip(Unstripped(prompt, maxLength))
  }

  /** `truncate_prompt` as the scripts write it: a loop over the sentences building `truncated`. */
  method TruncatePrompt(prompt: string, maxLength: int) returns (r: string)
    ensures r == Truncated(prompt, maxLength)
  {
    if |prompt| <= maxLength {
      return prompt;
    }
    var sentences := Split(prompt, '.');
    var truncated := "";
    var i := 0;
    while i < |sentences|
      invariant 0 <= i <= |sentences|
      invariant Pack(sentences, "", maxLength - Reserve) == Pack(sentences[i..], truncated, maxLength - Reserve)
    {
      var sentence := sentences[i];
      if |truncated| + |sentence| + 1 <= maxLength - Reserve {
        truncated := truncated + sentence + ".";
      } else {
        break;
      }
      i := i + 1;
    }
    if truncated == [] || |truncated| < Reserve {
      truncated := SlicePrefix(prompt, maxLength - 3) + "...";
    }
    r := Strip(truncated);
  }

  /**
   * What a generator sends: `truncate_prompt` is called only on a prompt
   * over the limit, and the result fits a limit of at least 3.
   */
  method PromptToSend(prompt: string, maxLength: int) returns (sent: string)
    ensures sent == Truncated(prompt, maxLength)
    ensures maxLength >= 3 ==> |sent| <= maxLength
  {
    sent := prompt;
    if |prompt| > maxLength {
      sent := TruncatePrompt(prompt, maxLength);
    }
    if maxLength >= 3 {
      LengthBound(prompt, maxLength);
    }
  }

  /** A prompt within the limit comes back unchanged, not even stripped. */
  lemma ShortPromptUnchanged(prompt: string, maxLength: int)
    requires |prompt| <= maxLength
    ensures Truncated(prompt, maxLength) == prompt
  {
  }

  /**
   * When the whole prompt does not fit the budget, the packer returns a
   * prefix of the prompt made of whole sentences: empty or ending in `.`,
   * and within the budget.
   */
  lemma {:induction false} PackIsSentencePrefix(sentences: seq<string>, acc: string, budget: int)
    requires |sentences| >= 1
    requires |acc| + |Join(sentences, '.')| + 1 > budget
    requires acc == [] || acc[|acc| - 1] == '.'
    requires |acc| <= budget
    ensures var r := Pack(sentences, acc, budget);
      IsPrefix(acc, r) && IsPrefix(r, acc + Join(sentences, '.')) && (r == [] || r[|r| - 1] == '.') && |r| <= budget
  {
    var next := acc + sentences[0] + ".";
    if |acc| + |sentences[0]| + 1 <= budget {
      if |sentences| == 1 {
        assert false;
      }
      assert Join(sentences, '.') == sentences[0] + "." + Join(sentences[1..], '.');
      assert next + Join(sentences[1..], '.') == acc + Join(sentences, '.');
      PackIsSentencePrefix(sentences[1..], next, budget);
      assert Pack(sentences, acc, budget) == Pack(sentences[1..], next, budget);
      assert IsPrefix(acc, next);
    }
  }

  /**
   * On the sentence-packing branch, the text before stripping is a prefix
   * of the prompt ending in `.`, at most `max_length - 50` long.
   */
  lemma PackedBranch(prompt: string, maxLength: int)
    requires |prompt| > maxLength
    requires |Pack(Split(prompt, '.'), "", maxLength - Reserve)| >= Reserve
    ensures var u := Unstripped(prompt, maxLength);
      u == Pack(Split(prompt, '.'), "", maxLength - Reserve) &&
      IsPrefix(u, prompt) && u[|u| - 1] == '.' && |u| <= maxLength - Reserve
  {
    SplitJoin(prompt, '.');
    PackIsSentencePrefix(Split(prompt, '.'), "", maxLength - Reserve);
  }

  /**
   * Otherwise the text before stripping is the hard cut
   * `prompt[:max_length-3] + "..."`.
   */
  lemma FallbackBranch(prompt: string, maxLength: int)
    requires |prompt| > maxLength
    requires |Pack(Split(prompt, '.'), "", maxLength - Reserve)| < Reserve
    ensures Unstripped(prompt, maxLength) == SlicePrefix(prompt, maxLength - 3) + "..."
    ensures maxLength >= 3 ==> |Unstripped(prompt, maxLength)| == maxLength
  {
  }

  /** For a limit of at least 3, the result never exceeds the limit. */
  lemma LengthBound(prompt: string, maxLength: int)
    requires maxLength >= 3
    ensures |Truncated(prompt, maxLength)| <= maxLength
  {
    if |prompt| > maxLength {
      var u := Unstripped(prompt, maxLength);
      StripShorter(u);
      if |Pack(Split(prompt, '.'), "", maxLength - Reserve)| >= Reserve {
        PackedBranch(prompt, maxLength);
      } else {
        FallbackBranch(prompt, maxLength);
      }
    }
  }

  /** For a limit of at least 3, truncating twice is truncating once. */
  lemma Idempotent(prompt: string, maxLength: int)
    requires maxLength >= 3
    ensures Truncated(Truncated(prompt, maxLength), maxLength) == Truncated(prompt, maxLength)
  {
    LengthBound(prompt, maxLength);
  }

  /** Below a limit of 3 the hard cut counts from the end, and the bound fails. */
  lemma SmallLimitOverflows()
    ensures Truncated("abcd", 2) == "abc..."
  {
    assert Pack(Split("abcd", '.'), "", 2 - Reserve) == "";
    assert SlicePrefix("abcd", -1) == "abc";
    var u := "abc...";
    assert LeadingSpaces(u) == 0;
    assert TrailingSpaces(u) == 0;
  }
}
