/** hooks/check_buildOpts.js: inserts a logging statement for `buildOpts` into cordova-ios's
    `build.js` (under `platforms/ios/cordova/node_modules`) just before the first signing
    guard. It skips a file that already holds the statement, so unlike the other two patches
    it is idempotent. */
module CheckBuildOpts {
  import opened JsText

  /** `matchLine`: the signing guard the statement is inserted before. */
  const MatchLine: string := "if (buildOpts.provisioningProfile && bundleIdentifier)"

  /** The logging statement without its line break (written in two pieces, which lets the
      verifier see its first character). */
  const LogStatement: string :=
    "console.log(\"\U{1F4E6} buildOpts ===> \"" + " + JSON.stringify(buildOpts, null, 2));"

  /** `logLine`: the statement followed by a line break. */
  const LogLine: string := LogStatement + "\n"

  /** How a run ends. Only `Written` writes `build.js`. */
  datatype Outcome =
    | NoBuildJs             // build.js does not exist
    | AlreadyLogged         // the file already contains the trimmed log line
    | GuardNotFound         // the replacement changed nothing
    | Written(content: string)

  /** `logLine.trim()` drops exactly the line break. */
  lemma TrimmedLogLine()
    ensures Trim(LogLine) == LogStatement
  {
    assert LogLine[0] == LogStatement[0] == 'c';
    assert TrimStart(LogLine) == LogLine;
    assert LogLine[..|LogLine| - 1] == LogStatement;
    assert LogStatement[|LogStatement| - 1] == ';';
  }

  /** Inserting before the guard changes the text exactly when the guard occurs. */
  lemma ReplacementChangesIffGuard(content: string)
    ensures ReplaceFirst(content, MatchLine, LogLine + MatchLine) == content
        <==> !Contains(content, MatchLine)
  {
    if Contains(content, MatchLine) {
      ReplaceFirstParts(content, MatchLine, LogLine + MatchLine, IndexOf(content, MatchLine).value);
    }
  }

  /** The hook, given whether `build.js` exists and its text. */
  function Run(buildJsExists: bool, content: string): (r: Outcome)
    ensures r == NoBuildJs <==> !buildJsExists
    ensures r == AlreadyLogged <==> buildJsExists && Contains(content, LogStatement)
    ensures r == GuardNotFound <==>
      buildJsExists && !Contains(content, LogStatement) && !Contains(content, MatchLine)
    ensures r.Written? <==>
      buildJsExists && !Contains(content, LogStatement) && Contains(content, MatchLine)
    ensures r.Written? ==> forall i :: FirstMatch(content, MatchLine, i) ==>
      r.content == content[..i] + LogLine + content[i..]
  {
    if !buildJsExists then NoBuildJs
    else if Contains(content, Trim(LogLine)) then
      TrimmedLogLine();
      AlreadyLogged
    else
      TrimmedLogLine();
      var newContent := ReplaceFirst(content, MatchLine, LogLine + MatchLine);
      ReplacementChangesIffGuard(content);
      if newContent == content then GuardNotFound
      else
        InsertBeforeFirst(content, MatchLine, LogLine, IndexOf(content, MatchLine).value);
        FirstMatchUnique(content, MatchLine, IndexOf(content, MatchLine).value);
        Written(newContent)
  }

  /** Text inserted at `i` occurs in the result, and so does each of its prefixes. */
  lemma InsertionContains(s: string, i: nat, ins: string, prefix: string)
    requires i <= |s| && |prefix| <= |ins| && ins[..|prefix|] == prefix
    ensures Contains(s[..i] + ins + s[i..], prefix)
  {
    var t := s[..i] + ins + s[i..];
    assert t[i..i + |prefix|] == prefix;
    ContainsAt(t, prefix, i);
  }

  /** A written file is the log line longer than before, and running the hook on it again
      skips it. */
  lemma Idempotent(content: string)
    requires Run(true, content).Written?
    ensures |Run(true, content).content| == |content| + |LogLine|
    ensures Run(true, Run(true, content).content) == AlreadyLogged
  {
    var i := IndexOf(content, MatchLine).value;
    var out := Run(true, content).content;
    InsertionContains(content, i, LogLine, LogStatement);
    assert Contains(out, LogStatement);
  }
}
