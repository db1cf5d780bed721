/** hooks/unzip_copy_provisioning_profiles.js: the earlier, decoder-only version of the profile
    handling in hooks/create_target2.js. It extracts the zip found under `<root>/www`, decodes
    each `.mobileprovision` from its PKCS#7 envelope, renames and copies it, and resolves with
    one `{name, uuid}` per profile. Its error paths return `defer.reject()`, which is
    `undefined`, instead of the promise. */
module UnzipCopyProvisioningProfiles {
  import opened Wrappers
  import opened Hooks
  import opened JsText
  import opened Profiles

  /** `extractProfileInfo` of lines 62-72: `decode` stands for reading the file and opening its
      PKCS#7 envelope, `parse` for `plist.parse`; there is no fallback, so `None` is a throw. */
  function ExtractSummary(decode: string -> Option<string>, parse: string -> Option<ProvisioningPlist>,
                          filePath: string): (r: Option<ProfileSummary>)
    ensures r.Some? <==> decode(filePath).Some? && parse(decode(filePath).value).Some?
    ensures r.Some? ==>
      var p := parse(decode(filePath).value).value;
      r.value.name == p.name && r.value.uuid == p.uuid
  {
    match decode(filePath)
    case None => None
    case Some(xml) =>
      match parse(xml)
      case None => None
      case Some(p) => Some(SummaryOf(p))
  }

  /** What the hook sees. `findZip` answers `getZipFile(folder, "provisioning-profiles")`;
      `extractedFiles` is `getFilesFromPath(extractedPath)` after extraction. */
  datatype Environment = Environment(
    platformValid: bool,                          // getPlatformConfigs(platform) is truthy
    projectRoot: string,
    pluginDir: string,
    platform: string,
    wwwPath: string,                              // getResourcesFolderPath(...)
    findZip: string -> Option<string>,
    extractedFiles: seq<string>,
    decode: string -> Option<string>,
    parse: string -> Option<ProvisioningPlist>,
    appFolderExists: bool)                        // checkIfFolderExists(platformAppFolder)

  /** What the hook did, in order. */
  datatype Effects = Effects(extraction: Option<(string, string)>, steps: seq<FileStep>)

  /** `returnsPromise` is false when the hook returns `undefined` rather than `defer.promise`. */
  datatype Result = Result(settlement: Settlement<seq<ProfileSummary>>, returnsPromise: bool,
                           effects: Effects)

  function SourceFolder(projectRoot: string): string
  {
    PathJoin(PathJoin(projectRoot, "www"), "provisioning-profiles")
  }

  function FoldersOf(env: Environment): Folders
  {
    Folders(PathJoin(env.wwwPath, "provisioning-profiles"),
            PathJoin(env.pluginDir, "provisioning-profiles"),
            PathJoin(PathJoin(PathJoin(env.projectRoot, "platforms"), env.platform), "app"),
            env.appFolderExists)
  }

  function Extractor(env: Environment): string -> Option<ProfileSummary>
  {
    (filePath: string) => ExtractSummary(env.decode, env.parse, filePath)
  }

  function SummaryUuid(summary: ProfileSummary): Option<string>
  {
    summary.uuid
  }

  /** The `profileFiles.forEach` of lines 112-130. */
  function Loop(env: Environment): LoopState<ProfileSummary>
  {
    ProfileLoop(ProfileFileNames(env.extractedFiles), FoldersOf(env), Extractor(env), SummaryUuid)
  }

  /** The hook. Each early exit rejects its deferred but hands back `undefined`; a profile that
      cannot be decoded throws after the ones before it were renamed and copied; otherwise the
      hook resolves with one summary per profile, in file order. */
  function Run(env: Environment): (r: Result)
    ensures !r.returnsPromise <==> r.settlement == Rejected
    ensures !env.platformValid ==> r == Result(Rejected, false, Effects(None, []))
    ensures env.platformValid && env.findZip(SourceFolder(env.projectRoot)).None? ==>
      r == Result(Rejected, false, Effects(None, []))
    ensures env.platformValid && env.findZip(SourceFolder(env.projectRoot)).Some? ==>
      r.effects.extraction == Some((env.findZip(SourceFolder(env.projectRoot)).value,
                                    PathJoin(env.wwwPath, "provisioning-profiles")))
    ensures r.settlement == Rejected <==>
      !env.platformValid || env.findZip(SourceFolder(env.projectRoot)).None?
      || ProfileFileNames(env.extractedFiles) == []
    ensures r.settlement.Rejected? ==> r.effects.steps == []
    ensures !r.settlement.Rejected? ==> r.effects.steps == Loop(env).steps
    ensures r.settlement == Threw <==> !r.settlement.Rejected? && Loop(env).failed
    ensures r.settlement.Resolved? <==> !r.settlement.Rejected? && !Loop(env).failed
    ensures r.settlement.Resolved? ==>
      r.settlement.value == Loop(env).records
      && |r.settlement.value| == |ProfileFileNames(env.extractedFiles)| > 0
      && r.effects.steps == Loop(env).steps
    ensures r.settlement.Resolved? ==> forall k :: 0 <= k < |r.settlement.value| ==>
      ExtractSummary(env.decode, env.parse,
                     PathJoin(FoldersOf(env).extracted, ProfileFileNames(env.extractedFiles)[k]))
      == Some(r.settlement.value[k])
  {
    if !env.platformValid then Result(Rejected, false, Effects(None, []))
    else match env.findZip(SourceFolder(env.projectRoot))
      case None => Result(Rejected, false, Effects(None, []))
      case Some(zip) =>
        var fx := Effects(Some((zip, PathJoin(env.wwwPath, "provisioning-profiles"))), []);
        var profileFiles := ProfileFileNames(env.extractedFiles);
        if profileFiles == [] then Result(Rejected, false, fx)
        else
          var loop := Loop(env);
          ProfileLoopSpec(profileFiles, FoldersOf(env), Extractor(env), SummaryUuid);
          var fx := fx.(steps := loop.steps);
          if loop.failed then Result(Threw, true, fx)
          else Result(Resolved(loop.records), true, fx)
  }
}
