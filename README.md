# outsystems-ios-targetadder-plugin hooks, modelled in Dafny

A model of the Cordova hooks that add a second iOS target to an OutSystems app. They read the
target's parameters from `process.argv`, handle the provisioning profiles that come in a zip,
patch cordova-ios's `build.js` and `exportOptions.plist` so both targets get signed, and run
`add_target.rb`.

Each hook has one Dafny module. The string and map logic the hooks are built from sits in
shared modules, and the model states what each hook computes:

| file | module | what it models |
|---|---|---|
| wrappers.dfy | `Wrappers`, `Hooks` | `Option` (`None` is JavaScript `undefined`); how a hook ends (`Settlement`) |
| js_text.dfy | `JsText` | `includes`, `replace` with a string pattern (first occurrence only), `split`, `trim`, `endsWith`, truthiness, template rendering, `path.join` |
| argv.dfy | `Argv` | the two argument folds: first non-empty value wins (`||=`), and last match wins (`else if`) |
| config_xml.dfy | `ConfigXml` | `configXml.match(/<name>(.*?)<\/name>/)` and the trimmed capture |
| profiles.dfy | `Profiles` | the profile record and its team-identifier chain, the `.mobileprovision` filter and `find`, the per-file rename/copy/record loop |
| create_target.dfy | `CreateTarget` | hooks/create_target.js |
| unzip_files.dfy | `UnzipFiles` | hooks/unzip_files.js |
| patch_buildjs.dfy | `PatchBuildJs` | hooks/patch_buildjs.js |
| check_buildopts.dfy | `CheckBuildOpts` | hooks/check_buildOpts.js |
| patch_exportoptions.dfy | `PatchExportOptions` | hooks/patch_exportOptions.js; the plist dictionary is a class updated in place |
| create_target2.dfy | `CreateTarget2` | hooks/create_target2.js |
| unzip_copy_provisioning_profiles.dfy | `UnzipCopyProvisioningProfiles` | hooks/unzip_copy_provisioning_profiles.js |
| create_target3.dfy | `CreateTarget3` | hooks/create_target3.js |

**The world as inputs.** A hook's world is passed in as values:
- which paths exist;
- file contents;
- directory listings;
- the answers of the decoders and of `plist.parse`, as partial functions where `None` is a throw;
- whether each subprocess succeeds.

**What a hook does.** A hook is a function from that world to two things:
- a `Settlement`: the promise resolved with a value, rejected, left pending forever, or the hook threw synchronously;
- the effects it performed, in order: which zips were extracted where, the renames, the copies, the text written to `build.js`, and the Ruby command line.

**Loops are methods.** The source's loops are methods with loop invariants. Each is proved equal to the fold that specifies it:
- the `args.forEach` folds;
- the profile `forEach`;
- the `retries` wait.

The dictionary update of `exportOptions.plist` goes through a class whose field the method reassigns.

## Model

| member | source | states |
|---|---|---|
| Argv.FirstTruthyValueSpec | hooks/create_target3.js:46-50 | a truthy starting value is kept; otherwise the value is `split("=")[1]` of the first argument that contains the key and yields a non-empty value; the result is truthy exactly when the start is or some argument supplies a value |
| Argv.LaterArgumentsNeverOverwrite | hooks/create_target3.js:46-50 | once the value is truthy, further arguments leave it unchanged |
| Argv.ReadLastWins | hooks/create_target.js:14-22 | the loop (also that of hooks/unzip_files.js:25-33, with the `SECOND_TARGET_*` keys) leaves both variables equal to the last-wins fold |
| Argv.LastWinsNameSpec | hooks/create_target.js:14-22 | the name is the last `=`-piece of the last argument containing the name key |
| Argv.LastWinsBundleSpec | hooks/create_target.js:14-22 | the bundle identifier is the last `=`-piece of the last argument containing the bundle key but not the name key |
| Argv.NoNameArgument | hooks/create_target.js:10-22 | with no argument containing the name key the name stays undefined |
| Argv.NoBundleArgument | hooks/create_target.js:10-22 | with no argument used for the bundle the identifier stays undefined |
| Argv.NameArgumentNeverSetsBundle | hooks/create_target.js:15-20 | an argument containing the name key sets the name to its last piece and leaves the bundle identifier as it was, even when it also contains the bundle key |
| JsText.ReplaceFirst | hooks/patch_buildjs.js:44 | without an occurrence the text is unchanged; otherwise the first occurrence, and only it, is replaced |
| JsText.InsertAfterFirst | hooks/patch_buildjs.js:44 | replacing `pat` by `pat + ins` inserts `ins` right after the first occurrence, all other text unchanged |
| JsText.InsertBeforeFirst | hooks/check_buildOpts.js:23-26 | replacing `pat` by `ins + pat` inserts `ins` right before the first occurrence, all other text unchanged |
| JsText.ReplaceFirstKeeps | hooks/create_target3.js:190 | a first-occurrence replacement keeps the text before it, places any piece of the replacement at its offset, and ends with the replacement's tail followed by the text after the occurrence |
| JsText.ReplacementKeepsPattern | hooks/patch_buildjs.js:44 | a replacement that contains the pattern leaves the pattern in the text |
| JsText.Trim | hooks/create_target3.js:72 | the result is a slice of the input that neither starts nor ends with ECMAScript white space or a line terminator, and everything cut is such a character |
| JsText.Split | hooks/create_target.js:16 | at least one piece, and no piece holds the separator |
| JsText.SplitJoin | hooks/create_target.js:16 | joining the pieces with the separator gives the input back |
| JsText.SecondSegmentSpec | hooks/create_target3.js:47-49 | with a first separator, `split("=")[1]` is defined and is the text between that separator and the next one or the end |
| JsText.SecondSegmentDefined | hooks/create_target3.js:47-49 | `split("=")[1]` is defined exactly when the string holds a separator |
| JsText.LastSegmentSpec | hooks/create_target.js:16-17 | the last piece is the text after the last separator, or the whole string without one |
| JsText.TemplateCollision | hooks/create_target3.js:126 | two values render alike exactly when they are equal or one is undefined and the other the string "undefined" |
| ConfigXml.ProjectName | hooks/create_target3.js:71-72 | `None` exactly when no `<name>` is followed on its line by `</name>`; otherwise the trimmed text between the leftmost `<name>` that has a match and its nearest `</name>` |
| Profiles.InfoOf | hooks/create_target3.js:101-105 | name and UUID are copied; teamId is the first TeamIdentifier when truthy, else the team-identifier entitlement when truthy, else "" (and "" exactly when neither is truthy) |
| Profiles.SummaryOf | hooks/unzip_copy_provisioning_profiles.js:68-71 | only the name and the UUID, the same as the three-field record's |
| Profiles.ProfileFileNames | hooks/create_target2.js:127 | keeps exactly the names ending in `.mobileprovision` and is no longer than the listing |
| Profiles.ProfileFileNamesAppend | hooks/create_target2.js:127 | the filter keeps the listing's order: filtering a concatenation concatenates the filtered parts |
| Profiles.NoProfileFileNames | hooks/create_target2.js:127-133 | a listing without profile names filters to the empty list |
| Profiles.FirstProfileFile | hooks/create_target3.js:122 | `undefined` exactly when no name ends in `.mobileprovision`; otherwise the first that does |
| Profiles.FirstProfileFileIsFirstFiltered | hooks/create_target3.js:122 | `find` picks the file the filter lists first, and finds nothing exactly when the filter is empty |
| Profiles.RenamedFileName | hooks/create_target2.js:144 | `<uuid>.mobileprovision` is again a profile name whose stem is the rendered UUID |
| Profiles.ProfileLoopCopies | hooks/create_target2.js:140-155 | every recorded step renames its file, within the extracted folder, to its record's UUID file name, copies that into the plugin folder, and copies it into the platform app folder exactly when that folder exists |
| Profiles.ProfileLoopSpec | hooks/create_target2.js:140-158 | files are decoded in order and the loop stops at the first that fails; every file before it gives one record decoded from it and one step renaming it to that record's UUID; the loop fails exactly when some file cannot be decoded, and otherwise gives one record per file |
| Profiles.ProfileLoopFailureSticks | hooks/create_target2.js:140-158 | after a failed decode, later files change nothing |
| Profiles.ProcessProfileFiles | hooks/unzip_copy_provisioning_profiles.js:112-130 | the `forEach` loop produces the records, the steps and the failure flag of the loop's specification |
| CreateTarget.Run | hooks/create_target.js:42-58 | throws exactly when the `xcodeproj` gem is neither installed nor installs; otherwise exit code 1 exactly when the Ruby script is missing, and Ruby runs exactly when it is present, with a command that passes the rendered name and bundle identifier |
| CreateTarget.SubstringKeyMatches | hooks/create_target.js:15-17 | an argument such as `SECOND_TARGET_NAME=v`, last to match, sets the target name to `v` |
| CreateTarget.MissingParametersPassUndefined | hooks/create_target.js:14-58 | with neither key given the command passes "undefined" twice |
| UnzipFiles.Run | hooks/unzip_files.js:9-60 | exits with code 1 exactly when the prerequisites fail or no name is given; otherwise looks for `<root>/platforms/ios/www/<name>/<bundle>.zip`, and extracts it into `<root>/<name>` exactly when it exists |
| UnzipFiles.NameArgumentIsNotABundle | hooks/unzip_files.js:25-31 | an argument containing `SECOND_TARGET_NAME=` never changes the bundle identifier |
| PatchBuildJs.Run | hooks/patch_buildjs.js:14-46 | nothing is written without the patch file or `build.js`, or when a field is falsy or the insert point is absent, and writes in the remaining case (each an if-and-only-if), with `, <bundleId>: <uuid>` inserted right after the first insert point, all other text unchanged |
| PatchBuildJs.NotIdempotent | hooks/patch_buildjs.js:34-44 | the written text is exactly the injected code longer, still contains the insert point, and a second run writes a longer text again |
| CheckBuildOpts.TrimmedLogLine | hooks/check_buildOpts.js:16-18 | trimming the log line drops exactly its line break |
| CheckBuildOpts.ReplacementChangesIffGuard | hooks/check_buildOpts.js:23-28 | the replacement leaves the text unchanged exactly when the guard is absent |
| CheckBuildOpts.Run | hooks/check_buildOpts.js:8-33 | does nothing exactly when `build.js` is missing, skips exactly when the statement is already there, reports a missing guard exactly when the statement and the guard are both absent, and writes exactly in the remaining case, with the log line right before the first guard |
| CheckBuildOpts.Idempotent | hooks/check_buildOpts.js:16-26 | a write grows the text by the log line's length, and a second run skips |
| PatchExportOptions.Patched | hooks/patch_exportOptions.js:26-28 | fails exactly when `provisioningProfiles` is a truthy primitive; otherwise: the keys gain only the two keys written; `signingStyle` is "manual"; every other key is unchanged; a falsy or missing map becomes `{bundleId: uuid}`; an existing map gains that entry; an array is left as it was |
| PatchExportOptions.PatchSetsEntry | hooks/patch_exportOptions.js:26-27 | the map then holds `bundleId -> uuid` and keeps every other entry it had |
| PatchExportOptions.PatchIdempotent | hooks/patch_exportOptions.js:26-28 | a second application with the same data changes nothing |
| PatchExportOptions.ExportOptions.constructor | hooks/patch_exportOptions.js:24-26 | holds the parsed dictionary |
| PatchExportOptions.ExportOptions.ApplyPatch | hooks/patch_exportOptions.js:26-28 | the in-place update leaves the dictionary of the specification, or, when it throws, the one it had |
| PatchExportOptions.PatchExportOptionsHook | hooks/patch_exportOptions.js:12-30 | a missing patch file or plist changes nothing; otherwise the hook throws exactly when the update does, leaving the dictionary unchanged, and writes exactly when it does not, with the dictionary replaced by the update's result |
| CreateTarget2.ExtractProfileInfo | hooks/create_target2.js:63-83 | the envelope decoder and parse first; `security cms` only when that fails, the parse included; a throw exactly when both fail |
| CreateTarget2.FallbackOnlyAfterFailure | hooks/create_target2.js:66-78 | when the envelope decodes, the fallback decoder has no influence on the result |
| CreateTarget2.ResolveParameters | hooks/create_target2.js:178-186 | starting from the plugin variables, the loop leaves the first-truthy fold for `TARGET_NAME=` and `BUNDLE_ID=` |
| CreateTarget2.PluginVariablesTakePrecedence | hooks/create_target2.js:179-185 | a non-empty plugin variable is kept; an unset or empty one takes the first argument that supplies a non-empty value |
| CreateTarget2.CallRuby | hooks/create_target2.js:188-236 | the Ruby command runs exactly when the target name, the bundle identifier and the project name are non-empty and the `xcodeproj` gem is installed or installs, and uses the first profile's name and team identifier; resolves with the whole list exactly when it runs and succeeds, and rejects otherwise |
| CreateTarget2.Run | hooks/create_target2.js:104-237 | rejects with no effect on an invalid platform or a missing zip, and before any rename when no profile file was extracted; otherwise the steps are those of the loop, and the hook throws exactly when a profile cannot be decoded; Ruby runs exactly when no profile fails and the parameters, project name and gem are there, and the hook resolves exactly when Ruby then succeeds, and rejects in every other case that does not throw; a resolution carries one record per profile in file order, each decoded from its file |
| CreateTarget3.ReadParameters | hooks/create_target3.js:43-50 | the loop leaves the first-truthy fold for each of the three keys |
| CreateTarget3.FirstVisible | hooks/create_target3.js:136-141 | the first index in the range at which the file is seen, or the bound |
| CreateTarget3.AwaitRenamedProfile | hooks/create_target3.js:136-143 | sleeps until the first sighting or 30 sleeps, calls `existsSync` exactly two more times than it sleeps (at most 32), and goes on exactly when the last call sees the file |
| CreateTarget3.WaitOutcome | hooks/create_target3.js:136-147 | for a file that stays once it appears, the hook goes on exactly when the file is seen by the last check, and a rejection means no check saw it |
| CreateTarget3.ReplacementBlockShape | hooks/create_target3.js:163-185 | the block holds the two assignments right after its head, `bundleId1` first, and ends with the guard line |
| CreateTarget3.PatchedBuildJs | hooks/create_target3.js:187-195 | nothing to write exactly when the guard is absent; otherwise only the first guard is replaced by the block |
| CreateTarget3.PatchKeepsSurroundings | hooks/create_target3.js:162-190 | the patched text keeps everything before the guard, holds both assignments after the block head, and ends with the guard followed by the original rest |
| CreateTarget3.PatchAppliesAgain | hooks/create_target3.js:184-190 | the patched text still contains the guard, so a second run patches again |
| CreateTarget3.FinishRun | hooks/create_target3.js:160-225 | `build.js` is written exactly when it exists and contains the guard, with the given replacement block spliced in; an empty project name rejects before Ruby; Ruby runs exactly when the name is non-empty and the `xcodeproj` gem is installed or installs, with the command of line 219; a failed gem install leaves the hook pending; the hook resolves with the second profile exactly when Ruby runs and succeeds, and rejects when it fails |
| CreateTarget3.RenameAndFinish | hooks/create_target3.js:118-158 | a rename happens exactly when there is a `.mobileprovision`, and renames the first one to `<profile2.uuid>.mobileprovision`; a file not seen by the last check rejects without copy, patch or Ruby; a file seen is copied to `~/Library/MobileDevice/Provisioning Profiles/<uuid>.mobileprovision` and the hook goes on as FinishRun from there; without a profile file it goes on as FinishRun at once; either way FinishRun gets the replacement block built from both bundle identifiers and both profile UUIDs |
| CreateTarget3.WithProjectName | hooks/create_target3.js:74-117 | a missing second zip rejects with nothing more done; otherwise it is extracted into `<root>/platforms/ios/<project>/<target>`; a missing decoded plist rejects, and a plist that does not parse leaves the hook pending; in both cases nothing is renamed, copied, patched or run beyond the extractions; with both parsed the hook goes on as RenameAndFinish with the two records; a resolution carries the record of `decoded_profile2.plist` |
| CreateTarget3.AfterParameters | hooks/create_target3.js:58-76 | the first zip is extracted, before anything else, exactly when it exists; a `config.xml` without a name then leaves the hook pending with nothing more done; with a name the hook goes on as WithProjectName |
| CreateTarget3.Run | hooks/create_target3.js:21-229 | an invalid platform rejects and failed prerequisites leave the hook pending, both with no effect; a missing `adm-zip` or a missing or empty parameter rejects before anything is extracted, read or written; with all three parameters the hook goes on as AfterParameters; the Ruby call needs a non-empty project name; a resolution carries the second profile's record |
| CreateTarget3.MissingProjectNameLeavesPending | hooks/create_target3.js:70-76 | with all parameters given and no `<name>` element, the hook never settles and neither renames, patches nor calls Ruby |
| UnzipCopyProvisioningProfiles.ExtractSummary | hooks/unzip_copy_provisioning_profiles.js:62-72 | defined exactly when the envelope decodes and parses, and then only the name and the UUID |
| UnzipCopyProvisioningProfiles.Run | hooks/unzip_copy_provisioning_profiles.js:74-156 | rejects, handing back `undefined` and renaming nothing, exactly on an invalid platform, a missing zip or no profile file; otherwise renames and copies as the profile loop does, throws exactly when a profile cannot be decoded, and resolves exactly when none fails, with one summary per profile in file order, each decoded from its file |

## Left out

- File-system effects are not performed:
  - existence checks, directory listings and file contents are inputs;
  - reads, writes, renames, copies and `mkdir` appear only as the recorded effects;
  - existence is a snapshot taken at the start of a hook, except the successive checks of the wait loop;
  - an exception thrown by reading a path that does not exist is not modelled. Examples are `readdirSync` of a missing folder in hooks/create_target3.js:121 and `readFileSync` of a missing `config.xml` at hooks/create_target3.js:70. The text of `config.xml` is an input, so a missing file is not one of the model's cases.
- Zip extraction is recorded as a `(zip, destination)` pair. The files it produces are the given listing.
- PKCS#7 decoding, `security cms -D` and `plist.parse` are partial functions given as inputs. Decoded values are records of the four fields the hooks read. Non-string values for those fields, and plist dates, data and reals, are not modelled.
- `JSON.parse` failures are not modelled. Neither are patch-file fields that are not strings.
- `gem list`, `gem install`, `ruby` and `security` are only a success flag, or the command line they receive. hooks/add_target.rb is not part of this model.
- The helpers in `utils.js` and `install_prerequisites.js` are not part of this model. `getPlatformConfigs`, `getResourcesFolderPath`, `getZipFile`, `getFilesFromPath`, `checkIfFolderExists` and `installPrerequisites` are inputs. `copyFromSourceToDestPath` is a recorded copy; what it does with the deferred it receives is unknown.
- The copies into `~/Library/MobileDevice/Provisioning Profiles` by `copyFolderRecursiveSync`, and the logging walks by `listDirectoryContents`, in hooks/create_target2.js and hooks/unzip_copy_provisioning_profiles.js, are not modelled. An error they throw is not modelled either.
- `os.homedir()` is an input. `path.join` is a plain join with `/`, without normalisation.
- `$` patterns in `replace` replacement strings are not interpreted. The interpolated values are taken to hold no `$`.
- Logging, timing (the 200 ms `Atomics.wait`), and the Q deferred's internals are not modelled. Only its final state is.
- A bundle identifier that looks like an array index, assigned on an array-valued `provisioningProfiles`, is not modelled: the model leaves an array unchanged.
- PatchExportOptions.Patched: a top-level plist that is not a dictionary is not modelled.
- CreateTarget3.Run: the build.js text, the rename, the wait and the Ruby call are not repeated on Run. Run hands over to AfterParameters, which hands over to WithProjectName, RenameAndFinish and FinishRun in turn, and each of those states its own part.
- The `gem install` failure inside hooks/create_target3.js throws in the `.then` callback, which has no `.catch`, so the deferred never settles. FinishRun states it as `Pending`.
- Strings are sequences of Unicode scalar values, while JavaScript strings are UTF-16 code units. Lengths therefore count each emoji in the log line and the replacement block as one character where JavaScript counts two. This affects the lengths stated by CheckBuildOpts.Idempotent, PatchBuildJs.NotIdempotent and CreateTarget3.PatchKeepsSurroundings. Matching and slicing of well-formed text are unaffected.

## Behaviour of the code worth knowing

These are places where the hooks' own comments or the plugin's description suggest otherwise. The model follows the code:

- **Wait-loop checks (hooks/create_target3.js:136-143).** The loop sleeps at most 30 times but calls `existsSync` up to 31 times in its condition. One more call follows after the loop, so there are up to 32 calls in all.
- **Missing project name (hooks/create_target3.js).** When `config.xml` has no `<name>` element, `projectName` is `null`, and `path.join` at line 76 throws inside the `.then` callback. That callback has no `.catch`, so the promise never settles. The `!projectName` check at line 201 only catches a name that trims to "".
- **Patches that run twice.** The patches of hooks/create_target3.js and hooks/patch_buildjs.js are not idempotent: a second run patches again. Only hooks/check_buildOpts.js guards against that.
- **Undefined returns (hooks/unzip_copy_provisioning_profiles.js).** Its early exits return `defer.reject()`, which is `undefined`, not the rejected promise.
- **Strict-mode throw (hooks/patch_exportOptions.js).** The hook runs in strict mode, so assigning into a `provisioningProfiles` that is a truthy string, number or boolean throws a `TypeError`.
- **Substring keys.** Keys are matched by substring. `SECOND_TARGET_NAME=` therefore also matches `TARGET_NAME=` in hooks/create_target.js and hooks/create_target2.js.
