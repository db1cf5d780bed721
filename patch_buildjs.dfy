/** hooks/patch_buildjs.js: appends one more `bundleId: uuid` entry to the export-options
    profile map that cordova-ios's `build.js` builds for the main target. The entry is spliced
    in right after the first occurrence of the insert point; nothing marks the file as patched,
    so a second run appends the entry again. */
module PatchBuildJs {
  import opened Wrappers
  import opened JsText

  /** The text in `build.js` after which the entry is inserted. */
  const InsertPoint: string :=
    "exportOptions.provisioningProfiles = { [bundleIdentifier]: String(buildOpts.provisioningProfile)"

  /** The fields read from `patch_export_options.json`; `None` is an absent field. */
  datatype PatchData = PatchData(bundleId: Option<string>, uuid: Option<string>)

  /** How a run ends. Only `Written` writes `build.js`. */
  datatype Outcome =
    | NoPatchFile            // patch_export_options.json missing
    | NoBuildJs              // build.js missing
    | InvalidPatchData       // bundleId or uuid falsy
    | InsertPointNotFound
    | Written(content: string)

  /** `, ${bundleId}: ${uuid}`: the values go in unquoted. */
  function InjectedCode(bundleId: string, uuid: string): string
  {
    ", " + bundleId + ": " + uuid
  }

  /** The hook, given which of the two files exist, the parsed patch data and the text of
      `build.js`. */
  function Run(patchFileExists: bool, buildJsExists: bool, patch: PatchData, buildJs: string): (r: Outcome)
    ensures r == NoPatchFile <==> !patchFileExists
    ensures r == NoBuildJs <==> patchFileExists && !buildJsExists
    ensures r == InvalidPatchData <==>
      patchFileExists && buildJsExists && !(Truthy(patch.bundleId) && Truthy(patch.uuid))
    ensures r == InsertPointNotFound <==>
      patchFileExists && buildJsExists && Truthy(patch.bundleId) && Truthy(patch.uuid)
      && !Contains(buildJs, InsertPoint)
    ensures r.Written? <==>
      patchFileExists && buildJsExists && Truthy(patch.bundleId) && Truthy(patch.uuid)
      && Contains(buildJs, InsertPoint)
    ensures r.Written? ==> forall i :: FirstMatch(buildJs, InsertPoint, i) ==>
      r.content == buildJs[..i + |InsertPoint|]
                   + InjectedCode(patch.bundleId.value, patch.uuid.value)
                   + buildJs[i + |InsertPoint|..]
  {
    if !patchFileExists then NoPatchFile
    else if !buildJsExists then NoBuildJs
    else if !Truthy(patch.bundleId) || !Truthy(patch.uuid) then InvalidPatchData
    else if !Contains(buildJs, InsertPoint) then InsertPointNotFound
    else
      var injected := InjectedCode(patch.bundleId.value, patch.uuid.value);
      InsertAfterIndexOf(buildJs, InsertPoint, injected);
      Written(ReplaceFirst(buildJs, InsertPoint, InsertPoint + injected))
  }

  /** A written file is exactly the injected code longer than before and still contains the
      insert point, so running the hook again on it appends the entry a second time. */
  lemma NotIdempotent(patch: PatchData, buildJs: string)
    requires Run(true, true, patch, buildJs).Written?
    ensures var out := Run(true, true, patch, buildJs).content;
      |out| == |buildJs| + |InjectedCode(patch.bundleId.value, patch.uuid.value)|
      && Contains(out, InsertPoint)
      && Run(true, true, patch, out).Written?
      && |Run(true, true, patch, out).content| > |out|
  {
    var i := IndexOf(buildJs, InsertPoint).value;
    var injected := InjectedCode(patch.bundleId.value, patch.uuid.value);
    ReplaceFirstParts(buildJs, InsertPoint, InsertPoint + injected, i);
    assert MatchAt(InsertPoint + injected, InsertPoint, 0);
    ReplacementKeepsPattern(buildJs, InsertPoint, InsertPoint + injected, 0);
    var out := Run(true, true, patch, buildJs).content;
    ReplaceFirstParts(out, InsertPoint, InsertPoint + injected, IndexOf(out, InsertPoint).value);
  }
}
