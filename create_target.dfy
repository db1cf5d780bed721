/** hooks/create_target.js: reads `TARGET_NAME=` and `BUNDLE_ID=` from the process arguments
    (last match wins, the name key taking precedence within one argument), installs the
    `xcodeproj` gem when it is missing, and runs the Ruby script `add_target.rb` with the two
    values, exiting the process when the script is missing. Nothing checks that the two values
    were found: an undefined value reaches the command as the text "undefined". */
module CreateTarget {
  import opened Wrappers
  import opened JsText
  import opened Argv

  const NameKey: string := "TARGET_NAME="
  const BundleKey: string := "BUNDLE_ID="

  /** Where the hook looks for the Ruby script. */
  function RubyScriptPath(projectRoot: string): string
  {
    projectRoot + "/plugins/outsystems-ios-targetadder-plugin/add_target.rb"
  }

  /** What the hook ends in. */
  datatype Outcome =
    | GemInstallThrew                 // `execSync('gem install xcodeproj')` failed
    | ProcessExit(code: int)          // `process.exit(1)`: the Ruby script is missing
    | RubyInvoked(command: string)    // the `execSync` command line

  /** The hook, given the process arguments, the project root, which paths exist, whether
      `gem list xcodeproj -i` succeeds and whether `gem install xcodeproj` would. */
  function Run(args: seq<string>, projectRoot: string, pathExists: string -> bool,
               gemInstalled: bool, gemInstallSucceeds: bool): (r: Outcome)
    ensures r == GemInstallThrew <==> !gemInstalled && !gemInstallSucceeds
    ensures r.ProcessExit? <==>
      (gemInstalled || gemInstallSucceeds) && !pathExists(RubyScriptPath(projectRoot))
    ensures r.ProcessExit? ==> r.code == 1
    ensures r.RubyInvoked? <==>
      (gemInstalled || gemInstallSucceeds) && pathExists(RubyScriptPath(projectRoot))
    ensures r.RubyInvoked? ==>
      var v := LastWinsScan(args, NameKey, BundleKey);
      r.command == "ruby " + RubyScriptPath(projectRoot) + " " + Template(v.targetName)
                   + " " + Template(v.bundleID)
  {
    var v := LastWinsScan(args, NameKey, BundleKey);
    if !gemInstalled && !gemInstallSucceeds then GemInstallThrew
    else if !pathExists(RubyScriptPath(projectRoot)) then ProcessExit(1)
    else RubyInvoked("ruby " + RubyScriptPath(projectRoot) + " " + Template(v.targetName)
                     + " " + Template(v.bundleID))
  }

  /** Matching is by substring: an argument such as `SECOND_TARGET_NAME=Widget` sets the
      target name to `Widget` when it is the last to match. */
  lemma SubstringKeyMatches(args: seq<string>, prefix: string, value: string)
    requires '=' !in value
    ensures LastWinsScan(args + [prefix + NameKey + value], NameKey, BundleKey).targetName
         == Some(value)
  {
    var arg := prefix + NameKey + value;
    assert arg[|prefix|..|prefix| + |NameKey|] == NameKey;
    ContainsAt(arg, NameKey, |prefix|);
    NameArgumentNeverSetsBundle(args, arg, NameKey, BundleKey);
    assert arg == (prefix + "TARGET_NAME") + ['='] + value;
    LastSegmentOfTail(prefix + "TARGET_NAME", '=', value);
  }

  /** With neither key given and the script present, the command passes the text
      "undefined" for both values: the hook has no missing-parameter check. */
  lemma MissingParametersPassUndefined(args: seq<string>, projectRoot: string, pathExists: string -> bool,
                                       gemInstalled: bool, gemInstallSucceeds: bool)
    requires forall i :: 0 <= i < |args| ==> !Contains(args[i], NameKey) && !Contains(args[i], BundleKey)
    requires gemInstalled || gemInstallSucceeds
    requires pathExists(RubyScriptPath(projectRoot))
    ensures Run(args, projectRoot, pathExists, gemInstalled, gemInstallSucceeds)
         == RubyInvoked("ruby " + RubyScriptPath(projectRoot) + " undefined undefined")
  {
    NoNameArgument(args, NameKey, BundleKey);
    NoBundleArgument(args, NameKey, BundleKey);
  }
}
