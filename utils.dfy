/** Host helpers: expansion of the `{repo}` placeholder in user-supplied paths, the mock-mode switch read from the
    environment, and the choice between an override text and a script file. The repository root, the environment
    value and the file reader are parameters. */
module Utils {
  import opened Wrappers
  import opened Text
  import opened Paths

  // ---------------------------------------------------------------------------
  // expand_repo_placeholders
  // ---------------------------------------------------------------------------

  /** expand_repo_placeholders: an empty string is returned as it is; otherwise every "{repo}" is replaced by the
      repository root, and then every "${repo}" left in the result. */
  function ExpandRepoPlaceholders(pathValue: string, repoRoot: string): string {
    if pathValue == "" then pathValue
    else ReplaceAll(ReplaceAll(pathValue, "{repo}", repoRoot), "${repo}", repoRoot)
  }

  /** "${repo}" contains "{repo}", so a string without "{repo}" has no "${repo}" either. */
  lemma DollarPlaceholderContainsPlain(s: string)
    ensures Contains(s, "${repo}") ==> Contains(s, "{repo}")
  {
    if Contains(s, "${repo}") {
      var i :| 0 <= i <= |s| - 7 && OccursAt(s, "${repo}", i);
      assert s[i + 1..i + 7] == s[i..i + 7][1..];
      assert OccursAt(s, "{repo}", i + 1);
    }
  }

  /** A path without the placeholder is returned unchanged, whatever the root. */
  lemma ExpandWithoutPlaceholder(pathValue: string, repoRoot: string)
    requires !Contains(pathValue, "{repo}")
    ensures ExpandRepoPlaceholders(pathValue, repoRoot) == pathValue
  {
    DollarPlaceholderContainsPlain(pathValue);
  }

  /** Because "{repo}" is replaced first, "${repo}" keeps its dollar sign: "${repo}/a" under the root "/r" becomes
      "$/r/a". */
  lemma ExpandDollarPlaceholder()
    ensures ExpandRepoPlaceholders("${repo}/a", "/r") == "$/r/a"
  {
    var s := "${repo}/a";
    assert s[..6][0] == '$';
    assert s[1..] == "{repo}" + "/a";
    ReplaceAllLeading("{repo}", "/r", "/a");
    var tail := "/a";
    assert tail[..|tail|] == tail;
    assert ReplaceAll(tail, "{repo}", "/r") == tail;
    assert ReplaceAll(s, "{repo}", "/r") == "$/r/a";
  }

  // ---------------------------------------------------------------------------
  // is_mock_mode
  // ---------------------------------------------------------------------------

  /** The lower-cased values of VV_MOCK_TTS that leave mock mode off. */
  const MockOffValues: set<string> := {"", "0", "false", "off"}

  /** is_mock_mode on the value of VV_MOCK_TTS (None when the variable is not set, which counts as ""): mock mode is
      on unless the value, lower-cased, is one of the four off values. An unset or empty variable leaves it off, and
      any value longer than five characters turns it on. */
  function IsMockMode(setting: Option<string>): (r: bool)
    ensures setting.None? || setting == Some("") ==> !r
    ensures !r ==> |setting.GetOr("")| <= 5
  {
    Lower(setting.GetOr("")) !in MockOffValues
  }

  /** The test ignores letter case: a value and its lower-cased form give the same answer, so "FALSE", "Off" and
      "off" all leave mock mode off. */
  lemma IsMockModeIgnoresCase(value: string)
    ensures IsMockMode(Some(Lower(value))) == IsMockMode(Some(value))
  {
    LowerIdempotent(value);
  }

  /** Only the four spellings switch mock mode off: "no" and "1" turn it on. */
  lemma IsMockModeExamples()
    ensures !IsMockMode(Some("FALSE")) && !IsMockMode(Some("Off")) && !IsMockMode(Some("0"))
    ensures IsMockMode(Some("no")) && IsMockMode(Some("1"))
  {
    assert Lower("FALSE") == "false";
    assert Lower("Off") == "off";
    assert Lower("0") == "0";
    assert Lower("no") == "no";
    assert Lower("1") == "1";
  }

  // ---------------------------------------------------------------------------
  // load_script_text
  // ---------------------------------------------------------------------------

  /** The sample script shipped with the repository. */
  function DefaultScriptPath(repoRoot: string): string {
    JoinPath(JoinPath(repoRoot, "examples"), "sample_script.txt")
  }

  /** load_script_text: an override text with a non-whitespace character is returned verbatim; otherwise a non-empty
      script path is expanded and read when it names a file; otherwise the sample script is read, which raises when
      it is missing. `readFile` gives a file's text, or None when the path is not a readable file. */
  function LoadScriptText(scriptPath: Option<string>, overrideText: Option<string>, repoRoot: string,
                          readFile: string -> Option<string>): (r: Result<string>)
    ensures overrideText.Some? && !IsBlank(overrideText.value) ==> r == Ok(overrideText.value)
    ensures (overrideText.None? || IsBlank(overrideText.value)) && scriptPath.Some? && scriptPath.value != []
            && readFile(ExpandRepoPlaceholders(scriptPath.value, repoRoot)).Some?
            ==> r == Ok(readFile(ExpandRepoPlaceholders(scriptPath.value, repoRoot)).value)
    ensures (overrideText.None? || IsBlank(overrideText.value))
            && (scriptPath.None? || scriptPath.value == []
                || readFile(ExpandRepoPlaceholders(scriptPath.value, repoRoot)).None?)
            && readFile(DefaultScriptPath(repoRoot)).Some?
            ==> r == Ok(readFile(DefaultScriptPath(repoRoot)).value)
    ensures r.Err? <==>
              && (overrideText.None? || IsBlank(overrideText.value))
              && (scriptPath.None? || scriptPath.value == []
                  || readFile(ExpandRepoPlaceholders(scriptPath.value, repoRoot)).None?)
              && readFile(DefaultScriptPath(repoRoot)).None?
    ensures r.Err? ==> r == Err(FileMissing(DefaultScriptPath(repoRoot)))
  {
    StripSpec(overrideText.GetOr(""));
    if overrideText.Some? && overrideText.value != [] && Strip(overrideText.value) != [] then
      Ok(overrideText.value)
    else
      var fromPath := if scriptPath.Some? && scriptPath.value != [] then
                        readFile(ExpandRepoPlaceholders(scriptPath.value, repoRoot))
                      else None;
      if fromPath.Some? then Ok(fromPath.value)
      else
        match readFile(DefaultScriptPath(repoRoot))
        case Some(text) => Ok(text)
        case None => Err(FileMissing(DefaultScriptPath(repoRoot)))
  }

  /** A blank override is ignored: the result is what the same call without an override gives. */
  lemma BlankOverrideIgnored(scriptPath: Option<string>, text: string, repoRoot: string,
                             readFile: string -> Option<string>)
    requires IsBlank(text)
    ensures LoadScriptText(scriptPath, Some(text), repoRoot, readFile) == LoadScriptText(scriptPath, None, repoRoot, readFile)
  {
    StripSpec(text);
  }
}
