/** hooks/unzip_files.js: after the prerequisites are installed, reads `SECOND_TARGET_NAME=`
    and `SECOND_TARGET_BUNDLE_ID=` from the process arguments (last match wins, the name key
    taking precedence within one argument) and extracts
    `<root>/platforms/ios/www/<targetName>/<bundleID>.zip` into `<root>/<targetName>`.
    The extraction itself is not modelled; `pathExists` answers `fs.existsSync`. */
module UnzipFiles {
  import opened Wrappers
  import opened JsText
  import opened Argv

  const NameKey: string := "SECOND_TARGET_NAME="
  const BundleKey: string := "SECOND_TARGET_BUNDLE_ID="

  /** The zip the hook extracts; `bundleID + '.zip'` turns an undefined identifier into
      "undefined.zip". */
  function ZipSource(projectRoot: string, targetName: string, bundleID: Option<string>): string
  {
    PathJoin(PathJoin(PathJoin(projectRoot, "platforms/ios/www"), targetName), Template(bundleID) + ".zip")
  }

  /** The folder the zip is extracted into. */
  function ZipDestination(projectRoot: string, targetName: string): string
  {
    PathJoin(projectRoot, targetName)
  }

  /** What the hook ends in. */
  datatype Outcome =
    | ProcessExit(code: int)                          // the `.catch`: prerequisites failed, or
                                                      // `path.join` threw on an undefined name
    | ZipMissing(source: string)                      // logged, nothing extracted
    | Extracted(source: string, destination: string)  // `zip.extractAllTo(destination, true)`

  /** The hook, given whether the prerequisites step and `require("adm-zip")` succeed, the
      process arguments, the project root and which paths exist (`fs.existsSync`). */
  function Run(prerequisitesReady: bool, args: seq<string>, projectRoot: string,
               pathExists: string -> bool): (r: Outcome)
    ensures r == ProcessExit(1) <==>
      !prerequisitesReady || LastWinsScan(args, NameKey, BundleKey).targetName == None
    ensures r.ProcessExit? ==> r.code == 1
    ensures r.ZipMissing? || r.Extracted? ==>
      var v := LastWinsScan(args, NameKey, BundleKey);
      v.targetName.Some? && r.source == ZipSource(projectRoot, v.targetName.value, v.bundleID)
    ensures r.ZipMissing? ==> !pathExists(r.source)
    ensures r.Extracted? ==> pathExists(r.source)
    ensures r.Extracted? ==>
      r.destination == ZipDestination(projectRoot, LastWinsScan(args, NameKey, BundleKey).targetName.value)
  {
    var v := LastWinsScan(args, NameKey, BundleKey);
    if !prerequisitesReady || v.targetName.None? then ProcessExit(1)
    else
      var source := ZipSource(projectRoot, v.targetName.value, v.bundleID);
      if !pathExists(source) then ZipMissing(source)
      else Extracted(source, ZipDestination(projectRoot, v.targetName.value))
  }

  /** An argument matching `SECOND_TARGET_NAME=` is never used for the bundle identifier,
      even when it also contains `SECOND_TARGET_BUNDLE_ID=`. */
  lemma NameArgumentIsNotABundle(args: seq<string>, arg: string)
    requires Contains(arg, NameKey)
    ensures LastWinsScan(args + [arg], NameKey, BundleKey).bundleID
         == LastWinsScan(args, NameKey, BundleKey).bundleID
  {
    NameArgumentNeverSetsBundle(args, arg, NameKey, BundleKey);
  }
}
