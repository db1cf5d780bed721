/** hooks/create_target3.js: after the prerequisites are installed, reads the two bundle
    identifiers and the second target's name from the process arguments, extracts the
    provisioning-profile zips, reads both decoded profiles, renames the first `.mobileprovision`
    to the second profile's UUID and waits for it to appear, copies it to the user's profile
    folder, patches cordova-ios's `build.js` to sign both targets, and runs `add_target.rb` for
    the second target, resolving with the second profile.

    The deferred is only settled on the paths that call `resolve`/`reject`: the work runs in a
    `.then` callback with no `.catch`, so an exception there (a failed plist parse, `path.join`
    on a `null` project name, a failed `gem install`) leaves the promise pending. */
module CreateTarget3 {
  import opened Wrappers
  import opened Hooks
  import opened JsText
  import opened Argv
  import opened ConfigXml
  import opened Profiles

  // ---------------------------------------------------------------- parameters

  const FirstBundleKey: string := "FIRST_TARGET_BUNDLEID="
  const SecondNameKey: string := "SECOND_TARGET_NAME="
  const SecondBundleKey: string := "SECOND_TARGET_BUNDLE_ID="

  /** The `args.forEach` loop: each of the three variables takes `arg.split("=")[1]` of a
      matching argument only while it is still falsy (`||=`). */
  method ReadParameters(args: seq<string>)
    returns (bundleId1: Option<string>, secondTargetName: Option<string>, bundleId2: Option<string>)
    ensures bundleId1 == FirstTruthyValue(None, args, FirstBundleKey)
    ensures secondTargetName == FirstTruthyValue(None, args, SecondNameKey)
    ensures bundleId2 == FirstTruthyValue(None, args, SecondBundleKey)
  {
    bundleId1, secondTargetName, bundleId2 := None, None, None;
    for i := 0 to |args|
      invariant bundleId1 == FirstTruthyValue(None, args[..i], FirstBundleKey)
      invariant secondTargetName == FirstTruthyValue(None, args[..i], SecondNameKey)
      invariant bundleId2 == FirstTruthyValue(None, args[..i], SecondBundleKey)
    {
      var arg := args[i];
      if Contains(arg, FirstBundleKey) && !Truthy(bundleId1) {
        bundleId1 := SecondSegment(arg, '=');
      }
      if Contains(arg, SecondNameKey) && !Truthy(secondTargetName) {
        secondTargetName := SecondSegment(arg, '=');
      }
      if Contains(arg, SecondBundleKey) && !Truthy(bundleId2) {
        bundleId2 := SecondSegment(arg, '=');
      }
      assert args[..i + 1][..i] == args[..i];
    }
    assert args[..|args|] == args;
  }

  // ---------------------------------------------------------------- the wait for the rename

  /** `let retries = 30`. */
  const MaxRetries: nat := 30

  /** The first index in `[from, bound)` at which `visible` holds, or `bound`. */
  function FirstVisible(visible: nat -> bool, from: nat, bound: nat): (k: nat)
    requires from <= bound
    decreases bound - from
    ensures from <= k <= bound
    ensures forall m :: from <= m < k ==> !visible(m)
    ensures k < bound ==> visible(k)
  {
    if from == bound then bound
    else if visible(from) then from
    else FirstVisible(visible, from + 1, bound)
  }

  /** Lines 136-143. `visible(n)` is the answer of the `n`-th `fs.existsSync(renamedPath)`
      (counting from 0). The loop sleeps until the file is seen or 30 sleeps have passed; the
      check after the loop is one more call. `checks` counts the calls: one per pass of the
      condition, including the one that ends the loop, plus the final one. */
  method AwaitRenamedProfile(visible: nat -> bool) returns (sleeps: nat, checks: nat, found: bool)
    ensures sleeps == FirstVisible(visible, 0, MaxRetries)
    ensures checks == sleeps + 2 && checks <= MaxRetries + 2
    ensures found == visible(sleeps + 1)
  {
    var retries: nat := MaxRetries;
    sleeps := 0;
    var seen := visible(0);
    checks := 1;
    while !seen && retries > 0
      invariant sleeps <= MaxRetries && retries == MaxRetries - sleeps && checks == sleeps + 1
      invariant seen == visible(sleeps)
      invariant FirstVisible(visible, 0, MaxRetries) == FirstVisible(visible, sleeps, MaxRetries)
    {
      sleeps := sleeps + 1;
      retries := retries - 1;
      seen := visible(checks);
      checks := checks + 1;
    }
    found := visible(checks);
    checks := checks + 1;
  }

  /** The file stays visible once it has appeared. */
  ghost predicate StaysVisible(visible: nat -> bool)
  {
    forall m: nat, n: nat :: m <= n && visible(m) ==> visible(n)
  }

  /** For a file that stays visible once it appears, the hook goes on exactly when the file is
      visible by the last check, and a rejection means every check missed it. */
  lemma WaitOutcome(visible: nat -> bool)
    requires StaysVisible(visible)
    ensures var k := FirstVisible(visible, 0, MaxRetries);
      (visible(k + 1) <==> visible(MaxRetries + 1))
      && (!visible(k + 1) ==> forall m: nat :: m <= MaxRetries + 1 ==> !visible(m))
  {
    var k := FirstVisible(visible, 0, MaxRetries);
    if k < MaxRetries {
      assert visible(k) && k <= k + 1 && k + 1 <= MaxRetries + 1;
    }
  }

  // ---------------------------------------------------------------- the build.js patch

  /** `searchLine`: the signing guard in `build.js`. */
  const SearchLine: string := "if (buildOpts.provisioningProfile && bundleIdentifier) {"

  /** The lines of `replacementBlock` before the two assignments. */
  const BlockHead: string :=
    "\nconst provisioningProfile = buildOpts.provisioningProfile;\n"
    + "console.log(\"provisioningProfile: \" + provisioningProfile);\n"
    + "console.log(\"bundleIdentifier: \" + bundleIdentifier);\n"
    + "console.log(\"\U{1F4E6} buildOpts ===> \" + JSON.stringify(buildOpts, null, 2));\n"
    + "\n"
    + SearchLine + "\n"
    + "    console.log(\"\U{1F527} Patching buildOpts.provisioningProfile with multiple entries...\");\n"
    + "    const originalProfile = buildOpts.provisioningProfile;\n"
    + "\n"
    + "    buildOpts.provisioningProfile = {};\n"

  /** `buildOpts.provisioningProfile["<bundleId>"] = "<uuid>";`. */
  function Assignment(bundleId: string, uuid: string): string
  {
    "    buildOpts.provisioningProfile[\"" + bundleId + "\"] = \"" + uuid + "\";\n"
  }

  /** The lines of `replacementBlock` between the assignments and the final guard. */
  const BlockTail: string :=
    "\n"
    + "    console.log(\"\U{2705} Final provisioningProfile map:\");\n"
    + "    console.log(JSON.stringify(buildOpts.provisioningProfile, null, 2));\n"
    + "}\n"
    + "console.log(\"bundleIdentifier: \" + bundleIdentifier);\n"
    + "console.log(\"provisioningProfile: \" + provisioningProfile);\n"
    + "console.log(\"\U{1F4E6} buildOpts ===> \" + JSON.stringify(buildOpts, null, 2));\n"
    + "console.log(\"\U{1F4E6} buildOpts.provisioningProfile ===> \" + JSON.stringify(buildOpts.provisioningProfile, null, 2));\n"

  /** `replacementBlock`: the two assignments, `bundleId1` first, and the guard line again
      at its end. */
  function ReplacementBlock(bundleId1: string, uuid1: string, bundleId2: string, uuid2: string): string
  {
    BlockHead + (Assignment(bundleId1, uuid1) + Assignment(bundleId2, uuid2)) + BlockTail + (SearchLine + "\n")
  }

  /** The block holds the two assignments right after its head, `bundleId1` first, and ends
      with the guard line. */
  lemma ReplacementBlockShape(bundleId1: string, uuid1: string, bundleId2: string, uuid2: string)
    ensures var block := ReplacementBlock(bundleId1, uuid1, bundleId2, uuid2);
      MatchAt(block, Assignment(bundleId1, uuid1) + Assignment(bundleId2, uuid2), |BlockHead|)
      && EndsWith(block, SearchLine + "\n")
  {
    ConcatParts(BlockHead, Assignment(bundleId1, uuid1) + Assignment(bundleId2, uuid2), BlockTail,
                SearchLine + "\n");
  }

  /** Lines 187-195: the new text of `build.js`, or `None` when the guard is absent and
      nothing is written. Only the first occurrence is replaced. */
  function PatchedBuildJs(content: string, block: string): (r: Option<string>)
    ensures r.None? <==> !Contains(content, SearchLine)
    ensures r.Some? ==> forall i :: FirstMatch(content, SearchLine, i) ==>
      r.value == content[..i] + block + content[i + |SearchLine|..]
  {
    if Contains(content, SearchLine) then Some(ReplaceFirst(content, SearchLine, block)) else None
  }

  /** Patching with a block that holds `inner` at `k` and ends with the guard keeps the text
      before the first guard, holds `inner` after it, and ends with the guard and the rest. */
  lemma PatchKeepsBlock(content: string, block: string, inner: string, k: int, i: int)
    requires FirstMatch(content, SearchLine, i)
    requires MatchAt(block, inner, k) && EndsWith(block, SearchLine + "\n")
    ensures var r := PatchedBuildJs(content, block).value;
      |r| == |content| - |SearchLine| + |block|
      && r[..i] == content[..i]
      && MatchAt(r, inner, i + k)
      && EndsWith(r, SearchLine + "\n" + content[i + |SearchLine|..])
  {
    ContainsAt(content, SearchLine, i);
    ReplaceFirstKeeps(content, SearchLine, block, i, inner, k, SearchLine + "\n");
  }

  /** The patched text keeps everything before the first guard, holds the two assignments
      after the block's head, and ends with the guard followed by the text that followed the
      original guard. */
  lemma PatchKeepsSurroundings(content: string, bundleId1: string, uuid1: string,
                               bundleId2: string, uuid2: string, i: int)
    requires FirstMatch(content, SearchLine, i)
    ensures var block := ReplacementBlock(bundleId1, uuid1, bundleId2, uuid2);
      var r := PatchedBuildJs(content, block).value;
      |r| == |content| - |SearchLine| + |block|
      && r[..i] == content[..i]
      && MatchAt(r, Assignment(bundleId1, uuid1) + Assignment(bundleId2, uuid2), i + |BlockHead|)
      && EndsWith(r, SearchLine + "\n" + content[i + |SearchLine|..])
  {
    var block := ReplacementBlock(bundleId1, uuid1, bundleId2, uuid2);
    ReplacementBlockShape(bundleId1, uuid1, bundleId2, uuid2);
    PatchKeepsBlock(content, block, Assignment(bundleId1, uuid1) + Assignment(bundleId2, uuid2),
                    |BlockHead|, i);
  }

  /** The patched text still contains the guard, so running the hook again patches it
      again: the patch is not idempotent. */
  lemma PatchAppliesAgain(content: string, block: string)
    requires PatchedBuildJs(content, block).Some?
    requires EndsWith(block, SearchLine + "\n")
    ensures PatchedBuildJs(PatchedBuildJs(content, block).value, block).Some?
  {
    var i := IndexOf(content, SearchLine).value;
    var k := |block| - |SearchLine + "\n"|;
    assert block[k..k + |SearchLine|] == SearchLine;
    ReplacementKeepsPattern(content, SearchLine, block, k);
  }

  // ---------------------------------------------------------------- the hook

  /** What the hook sees. Existence is a snapshot taken when the hook starts; `decode` reads
      and parses a decoded plist file (`None`: the parse throws); `renamedVisible` answers the
      successive `existsSync` calls on the renamed profile. */
  datatype Environment = Environment(
    platformValid: bool,                            // getPlatformConfigs(platform) is truthy
    prerequisitesInstalled: bool,                   // installPrerequisites(context) resolves
    admZipAvailable: bool,                          // require("adm-zip") succeeds
    args: seq<string>,                              // process.argv
    projectRoot: string,
    pluginDir: string,
    homeDir: string,                                // os.homedir()
    pathExists: string -> bool,                     // fs.existsSync
    configXml: string,
    decode: string -> Option<ProvisioningPlist>,
    provisioningFiles: seq<string>,                 // fs.readdirSync(provisioningFolder)
    renamedVisible: nat -> bool,
    buildJs: Option<string>,                        // build.js text, None when it is missing
    gemInstalled: bool,                             // `gem list xcodeproj -i` succeeds
    gemInstallSucceeds: bool,                       // `gem install xcodeproj` succeeds
    rubySucceeds: bool)                             // the `ruby` command succeeds

  /** What the hook did, in order. */
  datatype Effects = Effects(
    extractions: seq<(string, string)>,   // (zip, destination folder)
    rename: Option<(string, string)>,     // (from, to)
    profileCopy: Option<string>,          // destination of the copy of the renamed profile
    buildJsWrite: Option<string>,         // the text written to build.js
    rubyCommand: Option<string>)

  const NoEffects: Effects := Effects([], None, None, None, None)

  datatype Result = Result(settlement: Settlement<ProfileInfo>, effects: Effects)

  function WwwPath(projectRoot: string): string
  {
    PathJoin(PathJoin(PathJoin(projectRoot, "platforms"), "ios"), "www")
  }

  function ProvisioningFolder(projectRoot: string): string
  {
    PathJoin(WwwPath(projectRoot), "provisioning-profiles")
  }

  function CustomZipPath(projectRoot: string, secondTargetName: string, bundleId2: string): string
  {
    PathJoin(PathJoin(PathJoin(projectRoot, "platforms/ios/www"), secondTargetName), bundleId2 + ".zip")
  }

  /** Where lines 75-86 extract the second zip. */
  function SecondTargetFolder(projectRoot: string, projectName: string, secondTargetName: string): string
  {
    PathJoin(PathJoin(PathJoin(projectRoot, "platforms/ios"), projectName), secondTargetName)
  }

  function PlistPath1(projectRoot: string): string
  {
    PathJoin(WwwPath(projectRoot), "decoded_profile1.plist")
  }

  function PlistPath2(projectRoot: string): string
  {
    PathJoin(WwwPath(projectRoot), "decoded_profile2.plist")
  }

  /** Where line 156 copies the renamed profile. */
  function ProfileCopyTarget(homeDir: string, uuid: Option<string>): string
  {
    PathJoin(PathJoin(homeDir, "Library/MobileDevice/Provisioning Profiles"), RenamedFileName(uuid))
  }

  /** The provisioning zip of lines 58-67 and the folder it is extracted into. */
  function FirstZip(projectRoot: string): (string, string)
  {
    (PathJoin(ProvisioningFolder(projectRoot), "provisioning-profiles.zip"), ProvisioningFolder(projectRoot))
  }

  /** Lines 61-67: the first zip is extracted exactly when it exists. */
  function FirstExtraction(env: Environment): seq<(string, string)>
  {
    if env.pathExists(FirstZip(env.projectRoot).0) then [FirstZip(env.projectRoot)] else []
  }

  function Quoted(s: string): string
  {
    "\"" + s + "\""
  }

  /** The `execSync` command line of line 219. */
  function RubyCommand(env: Environment, secondTargetName: string, bundleId2: string,
                       projectName: string, profile2: ProfileInfo): string
  {
    var ios := PathJoin(PathJoin(env.projectRoot, "platforms"), "ios");
    "ruby " + Quoted(PathJoin(PathJoin(env.pluginDir, "hooks"), "add_target.rb"))
    + " " + Quoted(secondTargetName) + " " + Quoted(bundleId2)
    + " " + Quoted(PathJoin(ios, projectName + ".xcodeproj")) + " " + Quoted(PathJoin(ios, projectName))
    + " " + Quoted(env.projectRoot) + " " + Quoted(Template(profile2.name))
    + " " + Quoted(Template(profile2.uuid)) + " " + Quoted(profile2.teamId)
  }

  /** The steps from the `build.js` patch (line 160) to the end, once both profiles are read
      and any rename is done; `block` is the replacement block built from them. */
  function FinishRun(env: Environment, fx: Effects, block: string, secondTargetName: string,
                     bundleId2: string, projectName: string, profile2: ProfileInfo): (r: Result)
    requires fx.buildJsWrite == None && fx.rubyCommand == None
    ensures r.effects.extractions == fx.extractions && r.effects.rename == fx.rename
      && r.effects.profileCopy == fx.profileCopy
    ensures r.effects.buildJsWrite.Some? <==> env.buildJs.Some? && Contains(env.buildJs.value, SearchLine)
    ensures r.effects.buildJsWrite.Some? ==> r.effects.buildJsWrite == PatchedBuildJs(env.buildJs.value, block)
    ensures r.effects.rubyCommand.Some? <==>
      projectName != "" && (env.gemInstalled || env.gemInstallSucceeds)
    ensures r.effects.rubyCommand.Some? ==>
      r.effects.rubyCommand.value == RubyCommand(env, secondTargetName, bundleId2, projectName, profile2)
    ensures projectName == "" ==> r.settlement == Rejected
    ensures projectName != "" && !env.gemInstalled && !env.gemInstallSucceeds ==> r.settlement == Pending
    ensures r.effects.rubyCommand.Some? && !env.rubySucceeds ==> r.settlement == Rejected
    ensures r.settlement.Resolved? <==> r.effects.rubyCommand.Some? && env.rubySucceeds
    ensures r.settlement.Resolved? ==> r.settlement.value == profile2
  {
    var fx := if env.buildJs.Some? then fx.(buildJsWrite := PatchedBuildJs(env.buildJs.value, block)) else fx;
    if projectName == "" then Result(Rejected, fx)
    else if !env.gemInstalled && !env.gemInstallSucceeds then Result(Pending, fx)
    else
      var fx := fx.(rubyCommand := Some(RubyCommand(env, secondTargetName, bundleId2, projectName, profile2)));
      if env.rubySucceeds then Result(Resolved(profile2), fx) else Result(Rejected, fx)
  }

  /** Lines 118-157: rename the first `.mobileprovision` to `<profile2.uuid>.mobileprovision`,
      wait for it, and copy it; then the rest of the hook. Without such a file this part is
      skipped. */
  function RenameAndFinish(env: Environment, fx: Effects, bundleId1: string, secondTargetName: string,
                           bundleId2: string, projectName: string, profile1: ProfileInfo,
                           profile2: ProfileInfo): (r: Result)
    requires fx.rename == None && fx.profileCopy == None
    requires fx.buildJsWrite == None && fx.rubyCommand == None
    ensures r.effects.extractions == fx.extractions
    ensures r.effects.rename.Some? <==> FirstProfileFile(env.provisioningFiles).Some?
    ensures r.effects.rename.Some? ==>
      var folder := ProvisioningFolder(env.projectRoot);
      r.effects.rename.value.0 == PathJoin(folder, FirstProfileFile(env.provisioningFiles).value)
      && r.effects.rename.value.1 == PathJoin(folder, RenamedFileName(profile2.uuid))
    ensures FirstProfileFile(env.provisioningFiles).None? ==>
      r == FinishRun(env, fx, ReplacementBlock(bundleId1, Template(profile1.uuid), bundleId2, Template(profile2.uuid)),
                     secondTargetName, bundleId2, projectName, profile2)
    ensures (r.effects.rename.Some?
             && !env.renamedVisible(FirstVisible(env.renamedVisible, 0, MaxRetries) + 1)) ==>
      r.settlement == Rejected && r.effects.profileCopy == None
      && r.effects.buildJsWrite == None && r.effects.rubyCommand == None
    ensures (r.effects.rename.Some?
             && env.renamedVisible(FirstVisible(env.renamedVisible, 0, MaxRetries) + 1)) ==>
      r.effects.profileCopy == Some(ProfileCopyTarget(env.homeDir, profile2.uuid))
      && r == FinishRun(env, fx.(rename := r.effects.rename, profileCopy := r.effects.profileCopy),
                        ReplacementBlock(bundleId1, Template(profile1.uuid), bundleId2, Template(profile2.uuid)),
                        secondTargetName, bundleId2, projectName, profile2)
    ensures r.effects.rubyCommand.Some? ==> projectName != ""
  {
    var block := ReplacementBlock(bundleId1, Template(profile1.uuid), bundleId2, Template(profile2.uuid));
    match FirstProfileFile(env.provisioningFiles)
    case None => FinishRun(env, fx, block, secondTargetName, bundleId2, projectName, profile2)
    case Some(original) =>
      var folder := ProvisioningFolder(env.projectRoot);
      var renamedFile := RenamedFileName(profile2.uuid);
      var fx := fx.(rename := Some((PathJoin(folder, original), PathJoin(folder, renamedFile))));
      var sleeps := FirstVisible(env.renamedVisible, 0, MaxRetries);
      if !env.renamedVisible(sleeps + 1) then Result(Rejected, fx)
      else
        var target := ProfileCopyTarget(env.homeDir, profile2.uuid);
        FinishRun(env, fx.(profileCopy := Some(target)), block, secondTargetName, bundleId2, projectName, profile2)
  }

  /** Lines 74-226, once the project name is known. */
  function WithProjectName(env: Environment, fx: Effects, bundleId1: string, secondTargetName: string,
                           bundleId2: string, projectName: string): (r: Result)
    requires fx.rename == None && fx.profileCopy == None
    requires fx.buildJsWrite == None && fx.rubyCommand == None
    ensures var customZip := CustomZipPath(env.projectRoot, secondTargetName, bundleId2);
      !env.pathExists(customZip) ==> r == Result(Rejected, fx)
    ensures var customZip := CustomZipPath(env.projectRoot, secondTargetName, bundleId2);
      env.pathExists(customZip) ==>
        r.effects.extractions
        == fx.extractions + [(customZip, SecondTargetFolder(env.projectRoot, projectName, secondTargetName))]
    ensures !(env.pathExists(PlistPath1(env.projectRoot)) && env.pathExists(PlistPath2(env.projectRoot))) ==>
      r == Result(Rejected, fx.(extractions := r.effects.extractions))
    ensures env.pathExists(CustomZipPath(env.projectRoot, secondTargetName, bundleId2))
      && env.pathExists(PlistPath1(env.projectRoot)) && env.pathExists(PlistPath2(env.projectRoot))
      && (env.decode(PlistPath1(env.projectRoot)).None? || env.decode(PlistPath2(env.projectRoot)).None?)
      ==> r == Result(Pending, fx.(extractions := r.effects.extractions))
    ensures env.pathExists(CustomZipPath(env.projectRoot, secondTargetName, bundleId2))
      && env.pathExists(PlistPath1(env.projectRoot)) && env.pathExists(PlistPath2(env.projectRoot))
      && env.decode(PlistPath1(env.projectRoot)).Some? && env.decode(PlistPath2(env.projectRoot)).Some?
      ==> r == RenameAndFinish(env, fx.(extractions := r.effects.extractions), bundleId1, secondTargetName,
                               bundleId2, projectName, InfoOf(env.decode(PlistPath1(env.projectRoot)).value),
                               InfoOf(env.decode(PlistPath2(env.projectRoot)).value))
    ensures r.effects.rubyCommand.Some? ==> projectName != ""
    ensures r.settlement.Resolved? ==>
      r.effects.rubyCommand.Some? && env.rubySucceeds
      && env.decode(PlistPath2(env.projectRoot)).Some?
      && r.settlement.value == InfoOf(env.decode(PlistPath2(env.projectRoot)).value)
  {
    var customZip := CustomZipPath(env.projectRoot, secondTargetName, bundleId2);
    if !env.pathExists(customZip) then Result(Rejected, fx)
    else
      var dest := SecondTargetFolder(env.projectRoot, projectName, secondTargetName);
      var fx := fx.(extractions := fx.extractions + [(customZip, dest)]);
      var plist1 := PlistPath1(env.projectRoot);
      var plist2 := PlistPath2(env.projectRoot);
      if !env.pathExists(plist1) || !env.pathExists(plist2) then Result(Rejected, fx)
      else if env.decode(plist1).None? || env.decode(plist2).None? then Result(Pending, fx)
      else
        RenameAndFinish(env, fx, bundleId1, secondTargetName, bundleId2, projectName,
                        InfoOf(env.decode(plist1).value), InfoOf(env.decode(plist2).value))
  }

  /** Lines 58-226 once the three parameters are known to be non-empty. */
  function AfterParameters(env: Environment, bundleId1: string, secondTargetName: string,
                           bundleId2: string): (r: Result)
    ensures ProjectName(env.configXml).None? ==>
      r.settlement == Pending && r.effects.rename == None
      && r.effects.buildJsWrite == None && r.effects.rubyCommand == None
    ensures |FirstExtraction(env)| <= |r.effects.extractions|
      && r.effects.extractions[..|FirstExtraction(env)|] == FirstExtraction(env)
    ensures ProjectName(env.configXml).None? ==> r == Result(Pending, NoEffects.(extractions := FirstExtraction(env)))
    ensures ProjectName(env.configXml).Some? ==>
      r == WithProjectName(env, NoEffects.(extractions := FirstExtraction(env)), bundleId1, secondTargetName,
                           bundleId2, ProjectName(env.configXml).value)
    ensures r.effects.rubyCommand.Some? ==>
      ProjectName(env.configXml).Some? && ProjectName(env.configXml).value != ""
    ensures r.settlement.Resolved? ==>
      r.effects.rubyCommand.Some? && env.rubySucceeds
      && env.decode(PlistPath2(env.projectRoot)).Some?
      && r.settlement.value == InfoOf(env.decode(PlistPath2(env.projectRoot)).value)
  {
    var fx := NoEffects.(extractions := FirstExtraction(env));
    match ProjectName(env.configXml)
    case None => Result(Pending, fx)    // path.join(..., null, ...) throws
    case Some(projectName) => WithProjectName(env, fx, bundleId1, secondTargetName, bundleId2, projectName)
  }

  /** The hook. A missing or empty parameter rejects before anything is extracted, read or
      written; a `config.xml` without a name leaves the hook pending before the second zip, and
      an empty name rejects before the Ruby call. */
  function Run(env: Environment): (r: Result)
    ensures !env.platformValid ==> r == Result(Rejected, NoEffects)
    ensures env.platformValid && !env.prerequisitesInstalled ==> r == Result(Pending, NoEffects)
    ensures env.platformValid && env.prerequisitesInstalled
      && !(Truthy(FirstTruthyValue(None, env.args, FirstBundleKey))
           && Truthy(FirstTruthyValue(None, env.args, SecondNameKey))
           && Truthy(FirstTruthyValue(None, env.args, SecondBundleKey)))
      ==> r == Result(Rejected, NoEffects)
    ensures env.platformValid && env.prerequisitesInstalled && !env.admZipAvailable ==>
      r == Result(Rejected, NoEffects)
    ensures env.platformValid && env.prerequisitesInstalled && env.admZipAvailable
      && Truthy(FirstTruthyValue(None, env.args, FirstBundleKey))
      && Truthy(FirstTruthyValue(None, env.args, SecondNameKey))
      && Truthy(FirstTruthyValue(None, env.args, SecondBundleKey))
      ==> r == AfterParameters(env, FirstTruthyValue(None, env.args, FirstBundleKey).value,
                               FirstTruthyValue(None, env.args, SecondNameKey).value,
                               FirstTruthyValue(None, env.args, SecondBundleKey).value)
    ensures r.effects.rubyCommand.Some? ==>
      ProjectName(env.configXml).Some? && ProjectName(env.configXml).value != ""
    ensures r.settlement.Resolved? ==>
      r.effects.rubyCommand.Some? && env.rubySucceeds
      && env.decode(PlistPath2(env.projectRoot)).Some?
      && r.settlement.value == InfoOf(env.decode(PlistPath2(env.projectRoot)).value)
  {
    if !env.platformValid then Result(Rejected, NoEffects)
    else if !env.prerequisitesInstalled then Result(Pending, NoEffects)
    else if !env.admZipAvailable then Result(Rejected, NoEffects)
    else
      var bundleId1 := FirstTruthyValue(None, env.args, FirstBundleKey);
      var secondTargetName := FirstTruthyValue(None, env.args, SecondNameKey);
      var bundleId2 := FirstTruthyValue(None, env.args, SecondBundleKey);
      if !Truthy(secondTargetName) || !Truthy(bundleId2) || !Truthy(bundleId1) then Result(Rejected, NoEffects)
      else AfterParameters(env, bundleId1.value, secondTargetName.value, bundleId2.value)
  }

  /** With the parameters given and no `<name>` element in `config.xml`, the hook never
      settles and changes nothing after the first zip. */
  lemma MissingProjectNameLeavesPending(env: Environment)
    requires env.platformValid && env.prerequisitesInstalled && env.admZipAvailable
    requires Truthy(FirstTruthyValue(None, env.args, FirstBundleKey))
    requires Truthy(FirstTruthyValue(None, env.args, SecondNameKey))
    requires Truthy(FirstTruthyValue(None, env.args, SecondBundleKey))
    requires forall p, e :: !ElementAt(env.configXml, p, e)
    ensures Run(env).settlement == Pending
    ensures Run(env).effects.rename == None && Run(env).effects.buildJsWrite == None
    ensures Run(env).effects.rubyCommand == None
  {
  }
}
