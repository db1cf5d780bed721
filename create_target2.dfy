/** hooks/create_target2.js: extracts the provisioning-profile zip, decodes every
    `.mobileprovision` in it (PKCS#7 envelope first, `security cms -D` as fallback), renames each
    to `<uuid>.mobileprovision` and copies it to the plugin folder and, when it exists, the
    platform app folder, collecting one `{name, uuid, teamId}` per profile; then reads the
    target name and bundle identifier (plugin variables first, process arguments second) and
    runs `add_target.rb` with the first profile, resolving with the whole list.

    The hook runs synchronously: a profile that neither decoder can read throws out of the
    hook itself. */
module CreateTarget2 {
  import opened Wrappers
  import opened Hooks
  import opened JsText
  import opened Argv
  import opened ConfigXml
  import opened Profiles

  // ---------------------------------------------------------------- decoding

  /** `decoder` reads the file and `plist.parse` accepts what it returns. */
  predicate Decodes(decoder: string -> Option<string>, parse: string -> Option<ProvisioningPlist>,
                    filePath: string)
  {
    decoder(filePath).Some? && parse(decoder(filePath).value).Some?
  }

  /** `extractProfileInfo`: `forge` stands for `forge.pkcs7.messageFromAsn1(forge.asn1.fromDer(raw))`
      and `p7.content.toString()`, `cms` for `security cms -D -i`, `parse` for `plist.parse`;
      `None` is a throw. The fallback runs when anything in the first attempt throws, the
      parse included, and when both fail the error propagates. */
  function ExtractProfileInfo(forge: string -> Option<string>, cms: string -> Option<string>,
                              parse: string -> Option<ProvisioningPlist>, filePath: string): (r: Option<ProfileInfo>)
    ensures Decodes(forge, parse, filePath) ==>
      r == Some(InfoOf(parse(forge(filePath).value).value))
    ensures !Decodes(forge, parse, filePath) && Decodes(cms, parse, filePath) ==>
      r == Some(InfoOf(parse(cms(filePath).value).value))
    ensures r.None? <==> !Decodes(forge, parse, filePath) && !Decodes(cms, parse, filePath)
  {
    if Decodes(forge, parse, filePath) then Some(InfoOf(parse(forge(filePath).value).value))
    else if Decodes(cms, parse, filePath) then Some(InfoOf(parse(cms(filePath).value).value))
    else None
  }

  /** When the envelope decodes, `security cms` is never consulted: any fallback gives the
      same record. */
  lemma FallbackOnlyAfterFailure(forge: string -> Option<string>, cms1: string -> Option<string>,
                                 cms2: string -> Option<string>,
                                 parse: string -> Option<ProvisioningPlist>, filePath: string)
    requires Decodes(forge, parse, filePath)
    ensures ExtractProfileInfo(forge, cms1, parse, filePath) == ExtractProfileInfo(forge, cms2, parse, filePath)
  {
  }

  // ---------------------------------------------------------------- parameters

  const TargetNameKey: string := "TARGET_NAME="
  const BundleIdKey: string := "BUNDLE_ID="

  /** Lines 178-186: start from the plugin variables, then let each matching argument fill a
      variable that is still falsy with `arg.split("=")[1]`. */
  method ResolveParameters(pluginTargetName: Option<string>, pluginBundleId: Option<string>,
                           args: seq<string>)
    returns (targetName: Option<string>, bundleId: Option<string>)
    ensures targetName == FirstTruthyValue(pluginTargetName, args, TargetNameKey)
    ensures bundleId == FirstTruthyValue(pluginBundleId, args, BundleIdKey)
  {
    targetName, bundleId := pluginTargetName, pluginBundleId;
    for i := 0 to |args|
      invariant targetName == FirstTruthyValue(pluginTargetName, args[..i], TargetNameKey)
      invariant bundleId == FirstTruthyValue(pluginBundleId, args[..i], BundleIdKey)
    {
      var arg := args[i];
      if Contains(arg, TargetNameKey) && !Truthy(targetName) {
        targetName := SecondSegment(arg, '=');
      }
      if Contains(arg, BundleIdKey) && !Truthy(bundleId) {
        bundleId := SecondSegment(arg, '=');
      }
      assert args[..i + 1][..i] == args[..i];
    }
    assert args[..|args|] == args;
  }

  /** A non-empty plugin variable wins over every argument; an unset or empty one is filled by
      the first argument that supplies a non-empty value. */
  lemma PluginVariablesTakePrecedence(pluginValue: Option<string>, args: seq<string>, key: string)
    ensures Truthy(pluginValue) ==> FirstTruthyValue(pluginValue, args, key) == pluginValue
    ensures !Truthy(pluginValue) ==> forall i :: FirstSupplier(args, key, i) ==>
      FirstTruthyValue(pluginValue, args, key) == SecondSegment(args[i], '=')
  {
    FirstTruthyValueSpec(pluginValue, args, key);
  }

  // ---------------------------------------------------------------- the hook

  /** What the hook sees. `findZip` answers `getZipFile(folder, "provisioning-profiles")`;
      `extractedFiles` is `getFilesFromPath(extractedPath)` after extraction. */
  datatype Environment = Environment(
    platformValid: bool,                          // getPlatformConfigs(platform) is truthy
    projectRoot: string,
    pluginDir: string,
    platform: string,
    wwwPath: string,                              // getResourcesFolderPath(...)
    findZip: string -> Option<string>,
    extractedFiles: seq<string>,
    forge: string -> Option<string>,
    cms: string -> Option<string>,
    parse: string -> Option<ProvisioningPlist>,
    appFolderExists: bool,                        // checkIfFolderExists(platformAppFolder)
    pluginTargetName: Option<string>,             // pluginVars.TARGET_NAME
    pluginBundleId: Option<string>,               // pluginVars.BUNDLE_ID
    args: seq<string>,                            // process.argv
    configXml: string,
    gemInstalled: bool,                           // `gem list xcodeproj -i` succeeds
    gemInstallSucceeds: bool,                     // `gem install xcodeproj` succeeds
    rubySucceeds: bool)                           // the `ruby` command succeeds

  /** What the hook did, in order. */
  datatype Effects = Effects(extraction: Option<(string, string)>, steps: seq<FileStep>,
                             rubyCommand: Option<string>)

  datatype Result = Result(settlement: Settlement<seq<ProfileInfo>>, effects: Effects)

  function SourceFolder(projectRoot: string): string
  {
    PathJoin(PathJoin(PathJoin(PathJoin(projectRoot, "platforms"), "ios"), "www"), "provisioning-profiles")
  }

  function FoldersOf(env: Environment): Folders
  {
    Folders(PathJoin(env.wwwPath, "provisioning-profiles"),
            PathJoin(env.pluginDir, "provisioning-profiles"),
            PathJoin(PathJoin(PathJoin(env.projectRoot, "platforms"), env.platform), "app"),
            env.appFolderExists)
  }

  function Extractor(env: Environment): string -> Option<ProfileInfo>
  {
    (filePath: string) => ExtractProfileInfo(env.forge, env.cms, env.parse, filePath)
  }

  function InfoUuid(info: ProfileInfo): Option<string>
  {
    info.uuid
  }

  /** The `profileFiles.forEach` of lines 140-158. */
  function Loop(env: Environment): LoopState<ProfileInfo>
  {
    ProfileLoop(ProfileFileNames(env.extractedFiles), FoldersOf(env), Extractor(env), InfoUuid)
  }

  function Quoted(s: string): string
  {
    "\"" + s + "\""
  }

  /** The `execSync` command line of line 226. */
  function RubyCommand(env: Environment, targetName: string, bundleId: string, projectName: string,
                       profile: ProfileInfo): string
  {
    "ruby " + Quoted(PathJoin(PathJoin(env.pluginDir, "hooks"), "add_target.rb"))
    + " " + Quoted(targetName) + " " + Quoted(bundleId)
    + " " + Quoted(PathJoin(PathJoin(PathJoin(env.projectRoot, "platforms"), "ios"), projectName + ".xcodeproj"))
    + " " + Quoted(env.projectRoot) + " " + Quoted(Template(profile.name)) + " " + Quoted(profile.teamId)
  }

  /** The checks of lines 188-218 pass: both parameters are truthy, `config.xml` names the
      project, and the `xcodeproj` gem is installed or installs. */
  predicate ReadyForRuby(env: Environment)
  {
    Truthy(FirstTruthyValue(env.pluginTargetName, env.args, TargetNameKey))
    && Truthy(FirstTruthyValue(env.pluginBundleId, env.args, BundleIdKey))
    && Truthy(ProjectName(env.configXml))
    && (env.gemInstalled || env.gemInstallSucceeds)
  }

  /** Lines 177-237, once every profile is decoded. */
  function CallRuby(env: Environment, fx: Effects, records: seq<ProfileInfo>): (r: Result)
    requires |records| > 0 && fx.rubyCommand == None
    ensures r.effects.extraction == fx.extraction && r.effects.steps == fx.steps
    ensures r.effects.rubyCommand.Some? <==> ReadyForRuby(env)
    ensures r.effects.rubyCommand.Some? ==>
      r.effects.rubyCommand.value ==
        RubyCommand(env, FirstTruthyValue(env.pluginTargetName, env.args, TargetNameKey).value,
                    FirstTruthyValue(env.pluginBundleId, env.args, BundleIdKey).value,
                    ProjectName(env.configXml).value, records[0])
    ensures r.settlement.Resolved? <==> r.effects.rubyCommand.Some? && env.rubySucceeds
    ensures r.settlement.Resolved? ==> r.settlement.value == records
    ensures !r.settlement.Resolved? ==> r.settlement == Rejected
  {
    var targetName := FirstTruthyValue(env.pluginTargetName, env.args, TargetNameKey);
    var bundleId := FirstTruthyValue(env.pluginBundleId, env.args, BundleIdKey);
    var projectName := ProjectName(env.configXml);
    if !Truthy(targetName) || !Truthy(bundleId) then Result(Rejected, fx)
    else if !Truthy(projectName) then Result(Rejected, fx)
    else if !env.gemInstalled && !env.gemInstallSucceeds then Result(Rejected, fx)
    else
      var fx := fx.(rubyCommand := Some(RubyCommand(env, targetName.value, bundleId.value,
                                                    projectName.value, records[0])));
      if env.rubySucceeds then Result(Resolved(records), fx) else Result(Rejected, fx)
  }

  /** The zip was found and held at least one `.mobileprovision`, so the profile loop runs. */
  predicate ProfilesExtracted(env: Environment)
  {
    env.platformValid && env.findZip(SourceFolder(env.projectRoot)).Some?
    && ProfileFileNames(env.extractedFiles) != []
  }

  /** The hook. Without a `.mobileprovision` it rejects before renaming anything; a profile
      that cannot be decoded throws after the files before it were handled; otherwise every
      profile is renamed and copied, and the hook resolves, when the Ruby call succeeds, with
      one record per profile in file order, the Ruby call using the first. */
  function Run(env: Environment): (r: Result)
    ensures !env.platformValid ==> r == Result(Rejected, Effects(None, [], None))
    ensures env.platformValid && env.findZip(SourceFolder(env.projectRoot)).Some? ==>
      r.effects.extraction == Some((env.findZip(SourceFolder(env.projectRoot)).value,
                                    PathJoin(env.wwwPath, "provisioning-profiles")))
    ensures env.platformValid && env.findZip(SourceFolder(env.projectRoot)).None? ==>
      r == Result(Rejected, Effects(None, [], None))
    ensures ProfileFileNames(env.extractedFiles) == [] ==>
      r.settlement == Rejected && r.effects.steps == [] && r.effects.rubyCommand == None
    ensures ProfilesExtracted(env) ==> r.effects.steps == Loop(env).steps
    ensures r.settlement == Threw <==> ProfilesExtracted(env) && Loop(env).failed
    ensures r.effects.rubyCommand.Some? <==>
      ProfilesExtracted(env) && !Loop(env).failed && ReadyForRuby(env)
    ensures r.settlement.Resolved? <==> r.effects.rubyCommand.Some? && env.rubySucceeds
    ensures r.settlement != Threw && !r.settlement.Resolved? ==> r.settlement == Rejected
    ensures r.effects.rubyCommand.Some? ==>
      |Loop(env).records| == |ProfileFileNames(env.extractedFiles)| > 0
      && r.effects.rubyCommand.value ==
         RubyCommand(env, FirstTruthyValue(env.pluginTargetName, env.args, TargetNameKey).value,
                     FirstTruthyValue(env.pluginBundleId, env.args, BundleIdKey).value,
                     ProjectName(env.configXml).value, Loop(env).records[0])
    ensures r.settlement.Resolved? ==> r.effects.rubyCommand.Some? && r.settlement.value == Loop(env).records
    ensures r.settlement.Resolved? ==> forall k :: 0 <= k < |r.settlement.value| ==>
      ExtractProfileInfo(env.forge, env.cms, env.parse,
                         PathJoin(FoldersOf(env).extracted, ProfileFileNames(env.extractedFiles)[k]))
      == Some(r.settlement.value[k])
  {
    if !env.platformValid then Result(Rejected, Effects(None, [], None))
    else match env.findZip(SourceFolder(env.projectRoot))
      case None => Result(Rejected, Effects(None, [], None))
      case Some(zip) =>
        var fx := Effects(Some((zip, PathJoin(env.wwwPath, "provisioning-profiles"))), [], None);
        var profileFiles := ProfileFileNames(env.extractedFiles);
        if profileFiles == [] then Result(Rejected, fx)
        else
          var loop := Loop(env);
          ProfileLoopSpec(profileFiles, FoldersOf(env), Extractor(env), InfoUuid);
          var fx := fx.(steps := loop.steps);
          if loop.failed then Result(Threw, fx)
          else CallRuby(env, fx, loop.records)
  }
}
