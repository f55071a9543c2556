/**
 * The video combiner's planning: which files are combined and in what
 * order, the concat list written for FFmpeg, the FFmpeg argument lists,
 * and the exit and clean-up decisions of its main routine. FFmpeg itself
 * and the file system are inputs.
 */
module CombineAll {
  import opened Wrappers
  import opened Text
  import opened Seqs
  import GenerateVideos

  /** A `.mp4` file found in the input directory: its name and its absolute path. */
  datatype VideoFile = VideoFile(name: string, absPath: string)

  // ---------------------------------------------------------------------
  // The scene number: re.search(r'scene[_\s]*(\d+)', name, re.IGNORECASE)
  // ---------------------------------------------------------------------

  const SceneWord := "scene"

  /**
   * `c` matches the lower-case pattern letter `p` under `re.IGNORECASE`:
   * the same letter in either case, and for `s` also U+017F (long s).
   */
  predicate MatchesIgnoreCase(c: char, p: char) {
    LowerChar(c) == p || (p == 's' && c == '\U{17F}')
  }

  /** The literal `scene` matches, ignoring case, at index `i`. */
  predicate SceneWordAt(s: string, i: nat) {
    i + |SceneWord| <= |s| && forall k :: 0 <= k < |SceneWord| ==> MatchesIgnoreCase(s[i + k], SceneWord[k])
  }

  /** `[_\s]`. */
  predicate IsSeparator(c: char) {
    c == '_' || IsSpace(c)
  }

  /** The end of the longest run of characters satisfying `p` from index `j`. */
  function RunEnd(s: string, j: nat, p: char -> bool): (e: nat)
    requires j <= |s|
    ensures j <= e <= |s|
    ensures forall k :: j <= k < e ==> p(s[k])
    ensures e < |s| ==> !p(s[e])
    decreases |s| - j
  {
    if j < |s| && p(s[j]) then RunEnd(s, j + 1, p) else j
  }

  /**
   * The pattern anchored at index `i`, and the number its group reads. The
   * greedy `[_\s]*` takes the whole run of separators; giving any back
   * would put a separator where `\d` must match, so the match exists
   * exactly when a digit follows the run, and `\d+` takes the whole run of
   * digits.
   */
  function MatchAt(s: string, i: nat): Option<nat>
    requires i <= |s|
  {
    if !SceneWordAt(s, i) then None
    else
      var j := RunEnd(s, i + |SceneWord|, IsSeparator);
      if j < |s| && IsAsciiDigit(s[j]) then Some(NumberAt(s, j)) else None
  }

  /** `\d+` at index `j`: the value of the whole run of digits there. */
  function NumberAt(s: string, j: nat): nat
    requires j <= |s|
  {
    var e := RunEnd(s, j, IsAsciiDigit);
    assert forall k :: 0 <= k < |s[j..e]| ==> IsAsciiDigit(s[j..e][k]) by {
      forall k | 0 <= k < |s[j..e]| ensures IsAsciiDigit(s[j..e][k]) {
        assert s[j..e][k] == s[j + k];
      }
    }
    DigitsValue(s[j..e])
  }

  /** The anchored match at every index of `s`, from 0 to `|s|`. */
  function Matches(s: string): (ms: seq<Option<nat>>)
    ensures |ms| == |s| + 1
    ensures forall k :: 0 <= k <= |s| ==> ms[k] == MatchAt(s, k)
  {
    seq(|s| + 1, k requires 0 <= k <= |s| => MatchAt(s, k))
  }

  /** `re.search` from index `i`: the leftmost index where the anchored match succeeds, with its number. */
  function SearchFrom(ms: seq<Option<nat>>, i: nat): (r: Option<(nat, nat)>)
    requires i <= |ms|
    ensures r.Some? ==> i <= r.value.0 < |ms| && ms[r.value.0] == Some(r.value.1)
    ensures r.Some? ==> forall k :: i <= k < r.value.0 ==> ms[k].None?
    ensures r.None? ==> forall k :: i <= k < |ms| ==> ms[k].None?
    decreases |ms| - i
  {
    if i == |ms| then None
    else if ms[i].Some? then Some((i, ms[i].value))
    else SearchFrom(ms, i + 1)
  }

  /** The sort key of a file: its scene number, or its whole name. */
  datatype SceneKey = Numbered(n: nat) | Named(name: string)

  /** `get_scene_number`: the number of the leftmost match, or the name when nothing matches. */
  function GetSceneNumber(name: string): (r: SceneKey)
    ensures r.Named? <==> forall k :: 0 <= k <= |name| ==> MatchAt(name, k).None?
    ensures r.Named? ==> r.name == name
    ensures r.Numbered? ==>
      exists k :: 0 <= k <= |name| && MatchAt(name, k) == Some(r.n) &&
        forall k' :: 0 <= k' < k ==> MatchAt(name, k').None?
  {
    match SearchFrom(Matches(name), 0)
    case Some((_, n)) => Numbered(n)
    case None => Named(name)
  }

  /**
   * Round trip with the video generator: the scene number read back from
   * the file name `scene_{i}_{slug}.mp4` is `i`, whatever the scene name.
   */
  lemma SceneNumberOfVideoFilename(i: nat, sceneName: string)
    ensures GetSceneNumber(GenerateVideos.VideoFilename(i, sceneName)) == Numbered(i)
  {
    var d := NatToString(i);
    var slug := GenerateVideos.SceneSlug(sceneName);
    var s := GenerateVideos.VideoFilename(i, sceneName);
    assert s == "scene_" + d + "_" + slug + ".mp4";
    assert s[..5] == SceneWord;
    assert SceneWordAt(s, 0) by {
      forall k | 0 <= k < |SceneWord| ensures MatchesIgnoreCase(s[k], SceneWord[k]) {
        assert s[k] == SceneWord[k];
      }
    }
    assert s[5] == '_' && s[6] == d[0];
    assert !IsSeparator(s[6]);
    assert RunEnd(s, 6, IsSeparator) == 6;
    assert RunEnd(s, 5, IsSeparator) == 6;
    var e := RunEnd(s, 6, IsAsciiDigit);
    assert s[6 + |d|] == '_';
    forall k | 6 <= k < 6 + |d| ensures s[k] == d[k - 6] && IsAsciiDigit(s[k]) {
    }
    assert s[6..e] == d;
    DigitsRoundTrip(i);
    assert MatchAt(s, 0) == Some(i);
  }

  // ---------------------------------------------------------------------
  // Sorting by scene key: video_files.sort(key=get_scene_number)
  // ---------------------------------------------------------------------

  /** Python's `<` on two strings: lexicographic by code point, a proper prefix first. */
  predicate StrLt(a: string, b: string) {
    if a == [] then b != []
    else if b == [] then false
    else if a[0] != b[0] then a[0] < b[0]
    else StrLt(a[1..], b[1..])
  }

  lemma {:induction false} StrLtIrreflexive(a: string)
    ensures !StrLt(a, a)
  {
    if a != [] {
      StrLtIrreflexive(a[1..]);
    }
  }

  lemma {:induction false} StrLtTransitive(a: string, b: string, c: string)
    requires StrLt(a, b) && StrLt(b, c)
    ensures StrLt(a, c)
  {
    if a != [] && b != [] && c != [] && a[0] == b[0] && b[0] == c[0] {
      StrLtTransitive(a[1..], b[1..], c[1..]);
    }
  }

  lemma {:induction false} StrLtTotal(a: string, b: string)
    requires a != b
    ensures StrLt(a, b) || StrLt(b, a)
  {
    if a != [] && b != [] && a[0] == b[0] {
      assert a == [a[0]] + a[1..] && b == [b[0]] + b[1..];
      StrLtTotal(a[1..], b[1..]);
    }
  }

  /** Python's `<` on two keys of the same kind; keys of different kinds are not comparable. */
  predicate KeyLt(a: SceneKey, b: SceneKey) {
    match (a, b)
    case (Numbered(m), Numbered(n)) => m < n
    case (Named(x), Named(y)) => StrLt(x, y)
    case _ => false
  }

  lemma KeyLtTransitive(a: SceneKey, b: SceneKey, c: SceneKey)
    requires KeyLt(a, b) && KeyLt(b, c)
    ensures KeyLt(a, c)
  {
    if a.Named? {
      StrLtTransitive(a.name, b.name, c.name);
    }
  }

  lemma KeyLtTotal(a: SceneKey, b: SceneKey)
    requires a.Numbered? == b.Numbered?
    ensures KeyLt(a, b) || KeyLt(b, a) || a == b
  {
    if a.Named? && a != b {
      StrLtTotal(a.name, b.name);
    }
  }

  lemma KeyLtIrreflexive(a: SceneKey)
    ensures !KeyLt(a, a)
  {
    if a.Named? {
      StrLtIrreflexive(a.name);
    }
  }

  /*
   * The sort is stated for any list and any key function, and used with
   * the file list and `GetSceneNumber` of each file's name.
   */

  /** The list holds both a numbered and an unnumbered key, so sorting compares an `int` with a `str`. */
  predicate MixedKeys<T>(s: seq<T>, key: T -> SceneKey) {
    exists i, j :: 0 <= i < |s| && 0 <= j < |s| && key(s[i]).Numbered? && key(s[j]).Named?
  }

  /** Every key in the list is numbered, or every key is a name, as `numbered` says. */
  predicate Uniform<T>(s: seq<T>, key: T -> SceneKey, numbered: bool) {
    forall i :: 0 <= i < |s| ==> key(s[i]).Numbered? == numbered
  }

  /** No element of `s` has a key below `k`. */
  predicate AllAtLeast<T>(s: seq<T>, key: T -> SceneKey, k: SceneKey) {
    forall i :: 0 <= i < |s| ==> !KeyLt(key(s[i]), k)
  }

  predicate Sorted<T>(s: seq<T>, key: T -> SceneKey) {
    s == [] || (AllAtLeast(s[1..], key, key(s[0])) && Sorted(s[1..], key))
  }

  /** Insert `x` before the first element whose key is larger, that is after every equal key. */
  function Insert<T>(x: T, s: seq<T>, key: T -> SceneKey): seq<T> {
    if s == [] then [x]
    else if KeyLt(key(x), key(s[0])) then [x] + s
    else [s[0]] + Insert(x, s[1..], key)
  }

  /** A stable sort by key, one insertion per element in input order. */
  function SortBy<T>(s: seq<T>, key: T -> SceneKey): seq<T> {
    if s == [] then [] else Insert(s[|s| - 1], SortBy(s[..|s| - 1], key), key)
  }

  lemma {:induction false} InsertMultiset<T>(x: T, s: seq<T>, key: T -> SceneKey)
    ensures multiset(Insert(x, s, key)) == multiset(s) + multiset{x}
  {
    if s != [] && !KeyLt(key(x), key(s[0])) {
      assert Insert(x, s, key) == [s[0]] + Insert(x, s[1..], key);
      InsertMultiset(x, s[1..], key);
      assert s == [s[0]] + s[1..];
      assert multiset(s) == multiset{s[0]} + multiset(s[1..]);
    }
  }

  /** Sorting permutes the list. */
  lemma {:induction false} SortPermutes<T>(s: seq<T>, key: T -> SceneKey)
    ensures multiset(SortBy(s, key)) == multiset(s)
  {
    if s != [] {
      var init := s[..|s| - 1];
      var x := s[|s| - 1];
      assert SortBy(s, key) == Insert(x, SortBy(init, key), key);
      SortPermutes(init, key);
      InsertMultiset(x, SortBy(init, key), key);
      assert s == init + [x];
      assert multiset(s) == multiset(init) + multiset{x};
    }
  }

  lemma AllAtLeastByMultiset<T>(s: seq<T>, t: seq<T>, key: T -> SceneKey, k: SceneKey)
    requires multiset(s) <= multiset(t)
    requires AllAtLeast(t, key, k)
    ensures AllAtLeast(s, key, k)
  {
    forall i | 0 <= i < |s| ensures !KeyLt(key(s[i]), k) {
      assert s[i] in multiset(s);
      assert s[i] in multiset(t);
      var j :| 0 <= j < |t| && t[j] == s[i];
    }
  }

  lemma UniformByMultiset<T>(s: seq<T>, t: seq<T>, key: T -> SceneKey, numbered: bool)
    requires multiset(s) <= multiset(t)
    requires Uniform(t, key, numbered)
    ensures Uniform(s, key, numbered)
  {
    forall i | 0 <= i < |s| ensures key(s[i]).Numbered? == numbered {
      assert s[i] in multiset(s);
      assert s[i] in multiset(t);
      var j :| 0 <= j < |t| && t[j] == s[i];
    }
  }

  lemma UniformTail<T>(s: seq<T>, key: T -> SceneKey, numbered: bool)
    requires s != [] && Uniform(s, key, numbered)
    ensures Uniform(s[1..], key, numbered)
  {
    forall i | 0 <= i < |s[1..]| ensures key(s[1..][i]).Numbered? == numbered {
      assert s[1..][i] == s[i + 1];
    }
  }

  lemma UniformInit<T>(s: seq<T>, key: T -> SceneKey, numbered: bool)
    requires s != [] && Uniform(s, key, numbered)
    ensures Uniform(s[..|s| - 1], key, numbered)
  {
    var init := s[..|s| - 1];
    forall i | 0 <= i < |init| ensures key(init[i]).Numbered? == numbered {
      assert init[i] == s[i];
    }
  }

  /** Every key of a sorted list is at least the first one. */
  lemma SortedHeadIsLeast<T>(s: seq<T>, key: T -> SceneKey, i: nat)
    requires Sorted(s, key) && 0 < i < |s|
    ensures !KeyLt(key(s[i]), key(s[0]))
  {
    assert s[i] == s[1..][i - 1];
  }

  lemma {:induction false} InsertSorted<T>(x: T, s: seq<T>, key: T -> SceneKey, numbered: bool)
    requires Sorted(s, key) && Uniform(s, key, numbered) && key(x).Numbered? == numbered
    ensures Sorted(Insert(x, s, key), key)
  {
    if s == [] {
    } else if KeyLt(key(x), key(s[0])) {
      assert Insert(x, s, key)[1..] == s;
      forall i | 0 <= i < |s| ensures !KeyLt(key(s[i]), key(x)) {
        if i == 0 {
          if KeyLt(key(s[0]), key(x)) {
            KeyLtTransitive(key(s[0]), key(x), key(s[0]));
            KeyLtIrreflexive(key(s[0]));
          }
        } else {
          SortedHeadIsLeast(s, key, i);
          if KeyLt(key(s[i]), key(x)) {
            KeyLtTransitive(key(s[i]), key(x), key(s[0]));
          }
        }
      }
    } else {
      var rest := Insert(x, s[1..], key);
      UniformTail(s, key, numbered);
      InsertSorted(x, s[1..], key, numbered);
      InsertMultiset(x, s[1..], key);
      assert Insert(x, s, key) == [s[0]] + rest;
      var t := [x] + s[1..];
      assert multiset(rest) == multiset(t);
      forall i | 0 <= i < |t| ensures !KeyLt(key(t[i]), key(s[0])) {
        if i > 0 {
          assert t[i] == s[i];
          SortedHeadIsLeast(s, key, i);
        }
      }
      AllAtLeastByMultiset(rest, t, key, key(s[0]));
      assert Insert(x, s, key)[1..] == rest;
    }
  }

  /** Sorting a list of keys of one kind yields a sorted list. */
  lemma {:induction false} SortSorted<T>(s: seq<T>, key: T -> SceneKey, numbered: bool)
    requires Uniform(s, key, numbered)
    ensures Sorted(SortBy(s, key), key)
  {
    if s != [] {
      var init := s[..|s| - 1];
      UniformInit(s, key, numbered);
      SortSorted(init, key, numbered);
      SortPermutes(init, key);
      UniformByMultiset(SortBy(init, key), init, key, numbered);
      InsertSorted(s[|s| - 1], SortBy(init, key), key, numbered);
    }
  }

  /** The sorted list of a list of keys of one kind is sorted and still of that kind. */
  lemma SortKeepsKind<T>(s: seq<T>, key: T -> SceneKey, numbered: bool)
    requires Uniform(s, key, numbered)
    ensures Sorted(SortBy(s, key), key) && Uniform(SortBy(s, key), key, numbered)
  {
    SortSorted(s, key, numbered);
    SortPermutes(s, key);
    UniformByMultiset(SortBy(s, key), s, key, numbered);
  }

  /** A sorted list is ordered pairwise, not just from its head. */
  lemma {:induction false} SortedPairwise<T>(s: seq<T>, key: T -> SceneKey, i: nat, j: nat)
    requires Sorted(s, key) && i < j < |s|
    ensures !KeyLt(key(s[j]), key(s[i]))
  {
    if i == 0 {
      SortedHeadIsLeast(s, key, j);
    } else {
      assert s[i] == s[1..][i - 1] && s[j] == s[1..][j - 1];
      SortedPairwise(s[1..], key, i - 1, j - 1);
    }
  }

  /** The elements whose key is `k`. */
  function HasKey<T>(key: T -> SceneKey, k: SceneKey): T -> bool {
    (x: T) => key(x) == k
  }

  /** A sorted list has no element with a key below its head's. */
  lemma NoneBelowHead<T>(s: seq<T>, key: T -> SceneKey, k: SceneKey)
    requires Sorted(s, key) && s != [] && KeyLt(k, key(s[0]))
    ensures Filter(s, HasKey(key, k)) == []
  {
    var hk := HasKey(key, k);
    forall i | 0 <= i < |s| ensures !hk(s[i]) {
      if i == 0 {
        KeyLtIrreflexive(k);
      } else {
        SortedHeadIsLeast(s, key, i);
      }
    }
    FilterNone(s, hk);
  }

  lemma PrependBoth<T>(h: seq<T>, a: seq<T>, b: seq<T>, c: seq<T>)
    requires a == b + c
    ensures h + a == (h + b) + c
  {
  }

  /** Putting the same element in front of two lists keeps a relation between their filters. */
  lemma FilterConsBoth<T>(x: T, s: seq<T>, t: seq<T>, keep: T -> bool, extra: seq<T>)
    requires Filter(s, keep) == Filter(t, keep) + extra
    ensures Filter([x] + s, keep) == Filter([x] + t, keep) + extra
  {
    FilterCons(x, s, keep);
    FilterCons(x, t, keep);
    PrependBoth(if keep(x) then [x] else [], Filter(s, keep), Filter(t, keep), extra);
  }

  /** Inserting into a sorted list puts the new element after every element of equal key. */
  lemma {:induction false} InsertStable<T>(x: T, s: seq<T>, key: T -> SceneKey, numbered: bool, k: SceneKey)
    requires Sorted(s, key) && Uniform(s, key, numbered) && key(x).Numbered? == numbered
    ensures Filter(Insert(x, s, key), HasKey(key, k)) == Filter(s, HasKey(key, k)) + (if key(x) == k then [x] else [])
  {
    var hk := HasKey(key, k);
    if s == [] {
      FilterCons(x, [], hk);
    } else if KeyLt(key(x), key(s[0])) {
      FilterCons(x, s, hk);
      if key(x) == k {
        NoneBelowHead(s, key, k);
      }
    } else {
      UniformTail(s, key, numbered);
      InsertStable(x, s[1..], key, numbered, k);
      FilterConsBoth(s[0], Insert(x, s[1..], key), s[1..], hk, if key(x) == k then [x] else []);
      assert s == [s[0]] + s[1..];
    }
  }

  /** Sorting is stable: the elements of any one key keep their input order. */
  lemma {:induction false} SortStable<T>(s: seq<T>, key: T -> SceneKey, numbered: bool, k: SceneKey)
    requires Uniform(s, key, numbered)
    ensures Filter(SortBy(s, key), HasKey(key, k)) == Filter(s, HasKey(key, k))
  {
    if s != [] {
      var init := s[..|s| - 1];
      var x := s[|s| - 1];
      UniformInit(s, key, numbered);
      SortStable(init, key, numbered, k);
      SortKeepsKind(init, key, numbered);
      InsertStable(x, SortBy(init, key), key, numbered, k);
      assert SortBy(s, key) == Insert(x, SortBy(init, key), key);
      assert s == init + [x];
      FilterAppend(init, x, HasKey(key, k));
    }
  }

  // ---------------------------------------------------------------------
  // find_video_files
  // ---------------------------------------------------------------------

  /** The sort key of a file. */
  function Key(f: VideoFile): SceneKey {
    GetSceneNumber(f.name)
  }

  /** `project_name.lower() in f.name.lower()`. */
  function MentionsProject(projectName: string): VideoFile -> bool {
    (f: VideoFile) => Contains(Lower(f.name), Lower(projectName))
  }

  /** The files left after the project filter, which applies only to a non-empty project name. */
  function Selected(listing: seq<VideoFile>, projectName: Option<string>): seq<VideoFile> {
    if projectName.Some? && projectName.value != "" then Filter(listing, MentionsProject(projectName.value))
    else listing
  }

  /** What `find_video_files` ends with: the sorted list, or the `TypeError` of a mixed list. */
  datatype FindResult = Found(files: seq<VideoFile>) | MixedKeyError

  /**
   * `find_video_files` over the directory listing `listing` (the `.mp4`
   * files in the order `glob` yields them): nothing when the directory is
   * missing, otherwise the selected files sorted by scene key.
   */
  function FindVideoFiles(dirExists: bool, listing: seq<VideoFile>, projectName: Option<string>): (r: FindResult)
    ensures !dirExists ==> r == Found([])
    ensures r.MixedKeyError? <==> dirExists && MixedKeys(Selected(listing, projectName), Key)
    ensures r.Found? && dirExists ==>
      multiset(r.files) == multiset(Selected(listing, projectName)) && Sorted(r.files, Key)
  {
    if !dirExists then Found([])
    else
      var kept := Selected(listing, projectName);
      if MixedKeys(kept, Key) then MixedKeyError
      else
        var numbered := kept != [] && Key(kept[0]).Numbered?;
        assert Uniform(kept, Key, numbered);
        SortPermutes(kept, Key);
        SortSorted(kept, Key, numbered);
        Found(SortBy(kept, Key))
  }

  /** With a non-empty project name, a file is kept exactly when its lower-cased name contains the lower-cased project name. */
  lemma ProjectFilter(listing: seq<VideoFile>, p: string, f: VideoFile)
    requires p != ""
    requires f in listing
    ensures f in Selected(listing, Some(p)) <==> Contains(Lower(f.name), Lower(p))
  {
    FilterMembers(listing, MentionsProject(p));
  }

  /** Without a project name (or with an empty one) every file is kept. */
  lemma NoProjectKeepsAll(listing: seq<VideoFile>, projectName: Option<string>)
    requires projectName.None? || projectName.value == ""
    ensures Selected(listing, projectName) == listing
  {
  }

  /** In the found list, scene numbers never decrease. */
  lemma FoundAscending(dirExists: bool, listing: seq<VideoFile>, projectName: Option<string>, i: nat, j: nat)
    requires FindVideoFiles(dirExists, listing, projectName).Found?
    requires var files := FindVideoFiles(dirExists, listing, projectName).files;
      i < j < |files| && Key(files[i]).Numbered? && Key(files[j]).Numbered?
    ensures var files := FindVideoFiles(dirExists, listing, projectName).files;
      Key(files[i]).n <= Key(files[j]).n
  {
    var files := FindVideoFiles(dirExists, listing, projectName).files;
    SortedPairwise(files, Key, i, j);
  }

  /** Files of the same scene key stay in the order of the listing. */
  lemma FoundStable(listing: seq<VideoFile>, projectName: Option<string>, k: SceneKey)
    requires FindVideoFiles(true, listing, projectName).Found?
    ensures Filter(FindVideoFiles(true, listing, projectName).files, HasKey(Key, k)) ==
      Filter(Selected(listing, projectName), HasKey(Key, k))
  {
    var kept := Selected(listing, projectName);
    var numbered := kept != [] && Key(kept[0]).Numbered?;
    assert Uniform(kept, Key, numbered);
    SortStable(kept, Key, numbered, k);
  }

  /** Sorting two elements whose second key is smaller swaps them. */
  lemma SortSwapsPair<T>(x: T, y: T, key: T -> SceneKey)
    requires KeyLt(key(y), key(x))
    ensures SortBy([x, y], key) == [y, x]
  {
    assert [x, y][..1] == [x];
    assert SortBy([x], key) == [x];
  }

  /** Numeric, not alphabetical: the generator's scene 2 comes before its scene 10. */
  lemma SceneTwoBeforeSceneTen(a: string, b: string, pathA: string, pathB: string)
    ensures var two := VideoFile(GenerateVideos.VideoFilename(2, a), pathA);
      var ten := VideoFile(GenerateVideos.VideoFilename(10, b), pathB);
      FindVideoFiles(true, [ten, two], None) == Found([two, ten])
  {
    var two := VideoFile(GenerateVideos.VideoFilename(2, a), pathA);
    var ten := VideoFile(GenerateVideos.VideoFilename(10, b), pathB);
    SceneNumberOfVideoFilename(2, a);
    SceneNumberOfVideoFilename(10, b);
    var files := [ten, two];
    assert Key(files[0]) == Numbered(10) && Key(files[1]) == Numbered(2);
    assert !MixedKeys(files, Key);
    SortSwapsPair(ten, two, Key);
  }

  // ---------------------------------------------------------------------
  // create_concat_file
  // ---------------------------------------------------------------------

  /** One line of FFmpeg's concat list: `file '<path>'` with forward slashes. */
  function ConcatLine(absPath: string): string {
    "file '" + ReplaceChar(absPath, '\\', '/') + "'\n"
  }

  /** A line frames the path with `file '` and `'` and a newline, and holds no backslash. */
  lemma ConcatLineShape(absPath: string)
    ensures var line := ConcatLine(absPath);
      |line| == |absPath| + 8 && line[..6] == "file '" && line[|line| - 2..] == "'\n" &&
      line[6..|line| - 2] == ReplaceChar(absPath, '\\', '/') &&
      '\\' !in line
  {
    var line := ConcatLine(absPath);
    assert line[6..|line| - 2] == ReplaceChar(absPath, '\\', '/');
  }

  /** A path without backslashes is written as it is. */
  lemma ConcatLineKeepsPlainPath(absPath: string)
    requires '\\' !in absPath
    ensures ConcatLine(absPath)[6..|absPath| + 6] == absPath
  {
    var line := ConcatLine(absPath);
    assert line[6..|absPath| + 6] == ReplaceChar(absPath, '\\', '/');
  }

  /** The write loop of `create_concat_file`: one line per file, in the given order. */
  method CreateConcatFile(files: seq<VideoFile>) returns (lines: seq<string>)
    ensures |lines| == |files|
    ensures forall k :: 0 <= k < |files| ==> lines[k] == ConcatLine(files[k].absPath)
  {
    lines := [];
    for i := 0 to |files|
      invariant |lines| == i
      invariant forall k :: 0 <= k < i ==> lines[k] == ConcatLine(files[k].absPath)
    {
      var pathStr := ReplaceChar(files[i].absPath, '\\', '/');
      lines := lines + ["file '" + pathStr + "'\n"];
    }
  }

  // ---------------------------------------------------------------------
  // The FFmpeg command lines
  // ---------------------------------------------------------------------

  /** The argument list of `combine_videos`. */
  function CombineArgs(concatFile: string, outputFile: string, copyCodec: bool): (r: seq<string>)
    ensures |r| >= 9
    ensures r[..7] == ["ffmpeg", "-f", "concat", "-safe", "0", "-i", concatFile]
    ensures r[|r| - 2..] == ["-y", outputFile]
    ensures "copy" in r[7..|r| - 2] <==> copyCodec
    ensures "libx264" in r[7..|r| - 2] <==> !copyCodec
    ensures "aac" in r[7..|r| - 2] <==> !copyCodec
  {
    var codec := if copyCodec then ["-c", "copy"]
      else ["-c:v", "libx264", "-preset", "medium", "-crf", "23", "-c:a", "aac"];
    var r := ["ffmpeg", "-f", "concat", "-safe", "0", "-i", concatFile] + codec + ["-y", outputFile];
    assert r[7..|r| - 2] == codec;
    r
  }

  /** The audio filter: fade the music out over `fade` seconds. */
  function FadeFilter(fade: int): string {
    "[1:a]afade=t=out:st=0:d=" + IntToString(fade) + "[audio]"
  }

  /** The argument list of `add_background_music`. */
  function MusicArgs(videoFile: string, musicFile: string, outputFile: string, fade: int): (r: seq<string>)
    ensures |r| == 18
    ensures r[..5] == ["ffmpeg", "-i", videoFile, "-i", musicFile]
    ensures r[5..7] == ["-filter_complex", FadeFilter(fade)]
    ensures r[7..11] == ["-map", "0:v", "-map", "[audio]"]
    ensures r[11..15] == ["-c:v", "copy", "-c:a", "aac"]
    ensures r[15..] == ["-shortest", "-y", outputFile]
  {
    var inputs := ["ffmpeg", "-i", videoFile, "-i", musicFile];
    var filter := ["-filter_complex", FadeFilter(fade)];
    var maps := ["-map", "0:v", "-map", "[audio]"];
    var codecs := ["-c:v", "copy", "-c:a", "aac"];
    var tail := ["-shortest", "-y", outputFile];
    var r := inputs + filter + maps + codecs + tail;
    assert r[..5] == inputs;
    assert r[5..7] == filter;
    assert r[7..11] == maps;
    assert r[11..15] == codecs;
    assert r[15..] == tail;
    r
  }

  // ---------------------------------------------------------------------
  // cleanup_temp_files and main
  // ---------------------------------------------------------------------

  /** A path: its parent directory (empty for none) and its final name. */
  datatype FilePath = FilePath(dir: string, name: string)

  /** `str(path)`. */
  function PathString(p: FilePath): string {
    if p.dir == "" then p.name else p.dir + "/" + p.name
  }

  /** The files of `files` that an unlink would remove: those not in `undeletable`. */
  function Deletable(files: seq<FilePath>, undeletable: set<FilePath>): set<FilePath> {
    set f | f in files && f !in undeletable
  }

  lemma DeletableAppend(files: seq<FilePath>, f: FilePath, undeletable: set<FilePath>)
    ensures Deletable(files + [f], undeletable) == Deletable(files, undeletable) + (if f in undeletable then {} else {f})
  {
  }

  /** One more deletion: the file existed and had not been deleted before. */
  lemma DeletedCount(existing: set<FilePath>, before: set<FilePath>, f: FilePath)
    requires f in existing && f !in before
    ensures |existing * (before + {f})| == |existing * before| + 1
  {
    assert existing * (before + {f}) == existing * before + {f};
  }

  /** What the `i`-th file of the list does to the deletable set and to the count of deletions. */
  lemma CleanStep(files: seq<FilePath>, i: nat, existing: set<FilePath>, undeletable: set<FilePath>)
    requires i < |files|
    ensures var f := files[i];
      var before := Deletable(files[..i], undeletable);
      var after := Deletable(files[..i + 1], undeletable);
      after == before + (if f in undeletable then {} else {f}) &&
      (f in existing - before && f !in undeletable ==> |existing * after| == |existing * before| + 1) &&
      (!(f in existing - before && f !in undeletable) ==> existing * after == existing * before)
  {
    var f := files[i];
    var before := Deletable(files[..i], undeletable);
    assert files[..i + 1] == files[..i] + [f];
    DeletableAppend(files[..i], f, undeletable);
    if f in existing - before && f !in undeletable {
      DeletedCount(existing, before, f);
    }
  }

  /**
   * `cleanup_temp_files`: delete each listed file that exists, counting the
   * deletions; a file whose unlink fails is reported and left in place.
   * `existing` is the set of existing files, `undeletable` those whose
   * unlink raises.
   */
  method CleanupTempFiles(files: seq<FilePath>, existing: set<FilePath>, undeletable: set<FilePath>)
    returns (remaining: set<FilePath>, cleaned: nat)
    ensures remaining == existing - Deletable(files, undeletable)
    ensures cleaned == |existing * Deletable(files, undeletable)|
  {
    remaining := existing;
    cleaned := 0;
    for i := 0 to |files|
      invariant remaining == existing - Deletable(files[..i], undeletable)
      invariant cleaned == |existing * Deletable(files[..i], undeletable)|
    {
      var f := files[i];
      CleanStep(files, i, existing, undeletable);
      if f in remaining && f !in undeletable {
        remaining := remaining - {f};
        cleaned := cleaned + 1;
      }
    }
    assert files[..|files|] == files;
  }

  /** The command-line arguments of the combiner. */
  datatype CombinerArgs = CombinerArgs(
    inputDir: string,
    output: FilePath,
    projectName: Option<string>,
    music: Option<string>,
    fadeDuration: int,
    dryRun: bool,
    reEncode: bool)

  /**
   * What the combiner finds around it: whether FFmpeg answers, the
   * directory and its listing, and how each step that touches the file
   * system or runs FFmpeg ends.
   */
  datatype CombinerWorld = CombinerWorld(
    ffmpegInstalled: bool,
    inputDirExists: bool,
    listing: seq<VideoFile>,
    concatWritten: bool,
    outputDirCreated: bool,
    musicExists: bool,
    combineSucceeds: bool,
    musicSucceeds: bool)

  /** `if args.music:`. */
  predicate HasMusic(args: CombinerArgs) {
    args.music.Some? && args.music.value != ""
  }

  function ConcatFile(args: CombinerArgs): FilePath {
    FilePath(args.inputDir, "videos_concat_list.txt")
  }

  /** `<parent>/temp_<name>` of the output. */
  function TempOutput(output: FilePath): FilePath {
    FilePath(output.dir, "temp_" + output.name)
  }

  /** The run gets past the checks and the dry run to the stage with temporary files. */
  predicate ReachesCombine(args: CombinerArgs, world: CombinerWorld) {
    var found := FindVideoFiles(world.inputDirExists, world.listing, args.projectName);
    world.ffmpegInstalled && found.Found? && |found.files| >= 2 && !args.dryRun
  }

  /** The temporary files listed when clean-up runs. */
  function TempFiles(args: CombinerArgs, world: CombinerWorld): seq<FilePath> {
    [ConcatFile(args)] +
    (if world.concatWritten && world.outputDirCreated && HasMusic(args) then [TempOutput(args.output)] else [])
  }

  /** Every step after the checks succeeds. */
  predicate AllStepsSucceed(args: CombinerArgs, world: CombinerWorld) {
    world.concatWritten && world.outputDirCreated && world.combineSucceeds &&
    (HasMusic(args) ==> world.musicExists && world.musicSucceeds)
  }

  /**
   * The `try` block of the combiner's `main`: write the concat list,
   * combine (into the temporary file when music is added), add the music,
   * and clean up on every way out. `create_concat_file` and `mkdir` raise
   * into the `except Exception` handler.
   */
  method CombineStage(args: CombinerArgs, world: CombinerWorld, videoFiles: seq<VideoFile>)
    returns (exitCode: int, commands: seq<seq<string>>, concatLines: seq<string>, cleanups: seq<seq<FilePath>>)
    ensures exitCode == 0 || exitCode == 1
    ensures cleanups == [TempFiles(args, world)]
    ensures exitCode == 0 <==> AllStepsSucceed(args, world)
    ensures !world.concatWritten ==> concatLines == []
    ensures world.concatWritten ==>
      |concatLines| == |videoFiles| && forall k :: 0 <= k < |videoFiles| ==> concatLines[k] == ConcatLine(videoFiles[k].absPath)
    ensures !(world.concatWritten && world.outputDirCreated) ==> commands == []
    ensures world.concatWritten && world.outputDirCreated ==>
      var target := if HasMusic(args) then TempOutput(args.output) else args.output;
      |commands| >= 1 &&
      commands[0] == CombineArgs(PathString(ConcatFile(args)), PathString(target), !args.reEncode)
    ensures |commands| <= 2
    ensures |commands| == 2 <==>
      world.concatWritten && world.outputDirCreated && HasMusic(args) && world.combineSucceeds && world.musicExists
    ensures |commands| == 2 ==>
      commands[1] == MusicArgs(PathString(TempOutput(args.output)), args.music.value, PathString(args.output), args.fadeDuration)
  {
    commands := [];
    concatLines := [];
    cleanups := [];
    var concatFile := ConcatFile(args);
    var tempFiles := [concatFile];
    if !world.concatWritten {
      assert TempFiles(args, world) == tempFiles;
      cleanups := cleanups + [tempFiles];
      return 1, commands, concatLines, cleanups;
    }
    concatLines := CreateConcatFile(videoFiles);
    if !world.outputDirCreated {
      assert TempFiles(args, world) == tempFiles;
      cleanups := cleanups + [tempFiles];
      return 1, commands, concatLines, cleanups;
    }
    if HasMusic(args) {
      var tempOutput := TempOutput(args.output);
      tempFiles := tempFiles + [tempOutput];
      assert TempFiles(args, world) == tempFiles;
      commands := commands + [CombineArgs(PathString(concatFile), PathString(tempOutput), !args.reEncode)];
      if !world.combineSucceeds {
        cleanups := cleanups + [tempFiles];
        return 1, commands, concatLines, cleanups;
      }
      // add_background_music returns False before running FFmpeg when the music file is missing.
      if !world.musicExists {
        cleanups := cleanups + [tempFiles];
        return 1, commands, concatLines, cleanups;
      }
      commands := commands + [MusicArgs(PathString(tempOutput), args.music.value, PathString(args.output), args.fadeDuration)];
      if !world.musicSucceeds {
        cleanups := cleanups + [tempFiles];
        return 1, commands, concatLines, cleanups;
      }
    } else {
      assert TempFiles(args, world) == tempFiles;
      commands := commands + [CombineArgs(PathString(concatFile), PathString(args.output), !args.reEncode)];
      if !world.combineSucceeds {
        cleanups := cleanups + [tempFiles];
        return 1, commands, concatLines, cleanups;
      }
    }
    cleanups := cleanups + [tempFiles];
    exitCode := 0;
  }

  /**
   * `main` of the combiner. It returns the exit code, the FFmpeg command
   * lines it runs, the lines of the concat list it writes, and the list
   * handed to each call of `cleanup_temp_files`. The `TypeError` of a mixed
   * list is raised outside the `try`, so it ends the script with status 1
   * and no clean-up.
   */
  method RunCombiner(args: CombinerArgs, world: CombinerWorld)
    returns (exitCode: int, commands: seq<seq<string>>, concatLines: seq<string>, cleanups: seq<seq<FilePath>>)
    ensures exitCode == 0 || exitCode == 1
    ensures !ReachesCombine(args, world) ==> commands == [] && concatLines == [] && cleanups == []
    ensures !world.ffmpegInstalled ==> exitCode == 1
    ensures world.ffmpegInstalled ==>
      var found := FindVideoFiles(world.inputDirExists, world.listing, args.projectName);
      (found.MixedKeyError? ==> exitCode == 1) &&
      (found.Found? && found.files == [] ==> exitCode == 1) &&
      (found.Found? && |found.files| == 1 ==> exitCode == 0) &&
      (found.Found? && |found.files| >= 2 && args.dryRun ==> exitCode == 0)
    ensures ReachesCombine(args, world) ==>
      cleanups == [TempFiles(args, world)] &&
      (exitCode == 0 <==> AllStepsSucceed(args, world))
    ensures ReachesCombine(args, world) && world.concatWritten ==>
      var files := FindVideoFiles(world.inputDirExists, world.listing, args.projectName).files;
      |concatLines| == |files| && forall k :: 0 <= k < |files| ==> concatLines[k] == ConcatLine(files[k].absPath)
    ensures ReachesCombine(args, world) && world.concatWritten && world.outputDirCreated ==>
      var target := if HasMusic(args) then TempOutput(args.output) else args.output;
      |commands| >= 1 &&
      commands[0] == CombineArgs(PathString(ConcatFile(args)), PathString(target), !args.reEncode)
    ensures |commands| == 2 <==>
      ReachesCombine(args, world) && world.concatWritten && world.outputDirCreated && HasMusic(args) &&
      world.combineSucceeds && world.musicExists
    ensures |commands| == 2 ==>
      commands[1] == MusicArgs(PathString(TempOutput(args.output)), args.music.value, PathString(args.output), args.fadeDuration)
  {
    commands := [];
    concatLines := [];
    cleanups := [];
    if !world.ffmpegInstalled {
      return 1, commands, concatLines, cleanups;
    }
    var found := FindVideoFiles(world.inputDirExists, world.listing, args.projectName);
    if found.MixedKeyError? {
      return 1, commands, concatLines, cleanups;
    }
    var videoFiles := found.files;
    if videoFiles == [] {
      return 1, commands, concatLines, cleanups;
    }
    if |videoFiles| == 1 {
      return 0, commands, concatLines, cleanups;
    }
    if args.dryRun {
      return 0, commands, concatLines, cleanups;
    }
    exitCode, commands, concatLines, cleanups := CombineStage(args, world, videoFiles);
  }

  /** With music, the videos go to the temporary file and the music step writes the real output. */
  lemma MusicGoesThroughTempOutput(args: CombinerArgs, world: CombinerWorld)
    requires ReachesCombine(args, world) && HasMusic(args)
    requires world.concatWritten && world.outputDirCreated
    ensures TempFiles(args, world) == [ConcatFile(args), TempOutput(args.output)]
    ensures TempOutput(args.output) != args.output
  {
    assert |TempOutput(args.output).name| == |args.output.name| + 5;
  }
}
