/**
 * The setup checker: the Python version rule, the required packages, the
 * `.env` key rule, the directory report, and the summary that turns the
 * five results into the exit status. The interpreter version, importable
 * packages, FFmpeg's answer, the `.env` content and existing directories
 * are inputs.
 */
module VerifySetup {
  import opened Wrappers
  import opened Text
  import opened Seqs

  datatype PythonVersion = PythonVersion(major: nat, minor: nat, micro: nat)

  /** `version.major >= 3 and version.minor >= 8`, as `check_python_version` writes it. */
  predicate VersionCheckAsWritten(v: PythonVersion) {
    v.major >= 3 && v.minor >= 8
  }

  /** "3.8+": the (major, minor) pair is at least (3, 8) in lexicographic order. */
  predicate VersionCheck(v: PythonVersion) {
    v.major > 3 || (v.major == 3 && v.minor >= 8)
  }

  /** The written check rejects Python 4.0, which "3.8+" admits. */
  lemma AsWrittenRejectsFourZero()
    ensures !VersionCheckAsWritten(PythonVersion(4, 0, 0))
    ensures VersionCheck(PythonVersion(4, 0, 0))
  {
  }

  /** The two checks agree on every 3.x release, and the written one never admits more. */
  lemma VersionChecksAgreeOnThree(v: PythonVersion)
    ensures v.major == 3 ==> (VersionCheckAsWritten(v) <==> VersionCheck(v))
    ensures VersionCheckAsWritten(v) ==> VersionCheck(v)
  {
  }

  /** The corrected check is monotone: every later version passes once one passes. */
  lemma VersionCheckMonotone(v: PythonVersion, w: PythonVersion)
    requires VersionCheck(v)
    requires w.major > v.major || (w.major == v.major && w.minor >= v.minor)
    ensures VersionCheck(w)
  {
  }

  const RequiredPackages := ["google.genai", "dotenv", "yaml", "pyairtable", "requests"]

  /**
   * `check_dependencies`: try to import every package (its name with `-`
   * turned into `_`); passes when all imports succeed.
   */
  method CheckDependencies(importable: string -> bool) returns (allInstalled: bool)
    ensures allInstalled <==>
      forall k :: 0 <= k < |RequiredPackages| ==> importable(ReplaceChar(RequiredPackages[k], '-', '_'))
  {
    allInstalled := true;
    for i := 0 to |RequiredPackages|
      invariant allInstalled <==>
        forall k :: 0 <= k < i ==> importable(ReplaceChar(RequiredPackages[k], '-', '_'))
    {
      if !importable(ReplaceChar(RequiredPackages[i], '-', '_')) {
        allInstalled := false;
      }
    }
  }

  const RequiredKeys := ["GEMINI_API_KEY", "KIE_API_KEY", "AIRTABLE_API_TOKEN", "AIRTABLE_BASE_ID"]

  /** A key counts as missing when `KEY=` does not occur, or when `KEY=your_` does. */
  predicate KeyMissing(content: string, key: string) {
    !Contains(content, key + "=") || Contains(content, key + "=your_")
  }

  function MissingIn(content: string): string -> bool {
    (key: string) => KeyMissing(content, key)
  }

  /** A placeholder line marks the key missing even when a real value is also present. */
  lemma PlaceholderWins(content: string, key: string, value: string)
    requires Contains(content, key + "=" + value)
    requires Contains(content, key + "=your_")
    ensures KeyMissing(content, key)
  {
  }

  /** A key set to a value that does not start with `your_`, and never set to a placeholder, is present. */
  lemma RealValueCounts(content: string, key: string, i: nat)
    requires OccursAt(content, key + "=", i)
    requires !Contains(content, key + "=your_")
    ensures !KeyMissing(content, key)
  {
    ContainsWitness(content, key + "=", i);
  }

  /**
   * `check_env_file`: without a `.env` file it fails before any key is
   * looked at; otherwise it collects the missing keys in order and passes
   * when there are none.
   */
  method CheckEnvFile(env: Option<string>) returns (ok: bool, missingKeys: seq<string>)
    ensures env.None? ==> !ok && missingKeys == []
    ensures env.Some? ==> missingKeys == Filter(RequiredKeys, MissingIn(env.value))
    ensures env.Some? ==> (ok <==> forall k :: 0 <= k < |RequiredKeys| ==> !KeyMissing(env.value, RequiredKeys[k]))
  {
    missingKeys := [];
    if env.None? {
      return false, missingKeys;
    }
    var content := env.value;
    for i := 0 to |RequiredKeys|
      invariant missingKeys == Filter(RequiredKeys[..i], MissingIn(content))
    {
      var key := RequiredKeys[i];
      FilterStep(RequiredKeys, i, MissingIn(content));
      if !Contains(content, key + "=") || Contains(content, key + "=your_") {
        missingKeys := missingKeys + [key];
      }
    }
    assert RequiredKeys[..|RequiredKeys|] == RequiredKeys;
    ok := missingKeys == [];
    FilterMembers(RequiredKeys, MissingIn(content));
    if !ok {
      assert missingKeys[0] in Filter(RequiredKeys, MissingIn(content));
    } else {
      forall k | 0 <= k < |RequiredKeys| ensures !KeyMissing(content, RequiredKeys[k]) {
        assert RequiredKeys[k] in RequiredKeys;
      }
    }
  }

  const RequiredDirs := ["inputs", "outputs", "tools"]

  /**
   * `check_directories`: report which required directories exist (the
   * others "will be created when needed") and pass regardless.
   */
  method CheckDirectories(dirExists: string -> bool) returns (passed: bool, present: seq<string>)
    ensures passed
    ensures present == Filter(RequiredDirs, dirExists)
  {
    present := [];
    for i := 0 to |RequiredDirs|
      invariant present == Filter(RequiredDirs[..i], dirExists)
    {
      var name := RequiredDirs[i];
      FilterStep(RequiredDirs, i, dirExists);
      if dirExists(name) {
        present := present + [name];
      }
    }
    assert RequiredDirs[..|RequiredDirs|] == RequiredDirs;
    passed := true;
  }

  /** The summary loop of `main`: `all_passed` ends true exactly when every check passed. */
  method Summarize(checks: seq<(string, bool)>) returns (allPassed: bool)
    ensures allPassed <==> forall k :: 0 <= k < |checks| ==> checks[k].1
  {
    allPassed := true;
    for i := 0 to |checks|
      invariant allPassed <==> forall k :: 0 <= k < i ==> checks[k].1
    {
      var (_, passed) := checks[i];
      if !passed {
        allPassed := false;
      }
    }
  }

  /**
   * `main`: run the five checks, summarize, and return 0 when all pass,
   * else 1. The version check used is the corrected one.
   */
  method RunChecks(version: PythonVersion, ffmpegOk: bool, importable: string -> bool,
                   env: Option<string>, dirExists: string -> bool)
    returns (exitCode: int)
    ensures exitCode == 0 || exitCode == 1
    ensures exitCode == 0 <==>
      VersionCheck(version) && ffmpegOk &&
      (forall k :: 0 <= k < |RequiredPackages| ==> importable(ReplaceChar(RequiredPackages[k], '-', '_'))) &&
      env.Some? && (forall k :: 0 <= k < |RequiredKeys| ==> !KeyMissing(env.value, RequiredKeys[k]))
  {
    var deps := CheckDependencies(importable);
    var envOk, _ := CheckEnvFile(env);
    var dirsOk, _ := CheckDirectories(dirExists);
    var checks := [("Python Version", VersionCheck(version)), ("FFmpeg", ffmpegOk),
                   ("Python Dependencies", deps), ("Environment File", envOk), ("Directories", dirsOk)];
    var allPassed := Summarize(checks);
    assert allPassed <==> checks[0].1 && checks[1].1 && checks[2].1 && checks[3].1 && checks[4].1;
    exitCode := if allPassed then 0 else 1;
  }
}
