/** Provisioning-profile handling shared by hooks/create_target2.js,
    hooks/create_target3.js and hooks/unzip_copy_provisioning_profiles.js: the record read from
    a decoded profile, the `.mobileprovision` file-name filter, the rename to
    `<uuid>.mobileprovision`, and the per-file loop that renames, copies and collects one record
    per profile. Decoding (PKCS#7 and plist parsing) is an oracle that either yields the parsed
    plist or fails; the file system is not modelled, the loop only lists the steps it takes. */
module Profiles {
  import opened Wrappers
  import opened JsText

  /** The fields of a decoded provisioning profile that the hooks read; `None` is an absent
      key. */
  datatype ProvisioningPlist = ProvisioningPlist(
    name: Option<string>,                       // Name
    uuid: Option<string>,                       // UUID
    teamIdentifier: Option<seq<string>>,        // TeamIdentifier
    entitlements: Option<map<string, string>>)  // Entitlements

  const TeamIdentifierEntitlement: string := "com.apple.developer.team-identifier"

  /** `parsed.TeamIdentifier?.[0]`. */
  function FirstTeamIdentifier(p: ProvisioningPlist): Option<string>
  {
    if p.teamIdentifier.Some? && |p.teamIdentifier.value| > 0 then Some(p.teamIdentifier.value[0])
    else None
  }

  /** `parsed.Entitlements?.['com.apple.developer.team-identifier']`. */
  function EntitledTeamIdentifier(p: ProvisioningPlist): Option<string>
  {
    if p.entitlements.Some? && TeamIdentifierEntitlement in p.entitlements.value
    then Some(p.entitlements.value[TeamIdentifierEntitlement])
    else None
  }

  /** `{ name, uuid, teamId }` as hooks/create_target2.js (parseProvisioning) and
      hooks/create_target3.js (extractProfileInfoFromPlist) return it. */
  datatype ProfileInfo = ProfileInfo(name: Option<string>, uuid: Option<string>, teamId: string)

  /** `{ name, uuid }` as hooks/unzip_copy_provisioning_profiles.js returns it. */
  datatype ProfileSummary = ProfileSummary(name: Option<string>, uuid: Option<string>)

  /** The record of a parsed profile. The team identifier is the first `TeamIdentifier`
      element if it is non-empty, else the team-identifier entitlement if that is non-empty,
      else the empty string. */
  function InfoOf(p: ProvisioningPlist): (r: ProfileInfo)
    ensures r.name == p.name && r.uuid == p.uuid
    ensures Truthy(FirstTeamIdentifier(p)) ==> r.teamId == FirstTeamIdentifier(p).value
    ensures !Truthy(FirstTeamIdentifier(p)) && Truthy(EntitledTeamIdentifier(p)) ==>
      r.teamId == EntitledTeamIdentifier(p).value
    ensures r.teamId == "" <==> !Truthy(FirstTeamIdentifier(p)) && !Truthy(EntitledTeamIdentifier(p))
  {
    var first := FirstTeamIdentifier(p);
    var entitled := EntitledTeamIdentifier(p);
    ProfileInfo(p.name, p.uuid,
                if Truthy(first) then first.value else if Truthy(entitled) then entitled.value else "")
  }

  /** The two-field record: name and UUID only, whatever else the profile holds. */
  function SummaryOf(p: ProvisioningPlist): (r: ProfileSummary)
    ensures r.name == InfoOf(p).name && r.uuid == InfoOf(p).uuid
  {
    ProfileSummary(p.name, p.uuid)
  }

  // ---------------------------------------------------------------- file names

  const ProfileSuffix: string := ".mobileprovision"

  predicate IsProfileFileName(f: string)
  {
    EndsWith(f, ProfileSuffix)
  }

  /** `files.filter(name => name.endsWith(".mobileprovision"))`. */
  function ProfileFileNames(files: seq<string>): (r: seq<string>)
    decreases |files|
    ensures |r| <= |files|
    ensures forall f :: f in r <==> f in files && IsProfileFileName(f)
  {
    if files == [] then []
    else
      var last := files[|files| - 1];
      ProfileFileNames(files[..|files| - 1]) + (if IsProfileFileName(last) then [last] else [])
  }

  /** The filter keeps the order of the listing: filtering a concatenation is concatenating
      the filtered parts. */
  lemma {:induction false} ProfileFileNamesAppend(a: seq<string>, b: seq<string>)
    ensures ProfileFileNames(a + b) == ProfileFileNames(a) + ProfileFileNames(b)
    decreases |b|
  {
    if b == [] {
      assert a + b == a;
    } else {
      var b', x := b[..|b| - 1], b[|b| - 1];
      var tail := if IsProfileFileName(x) then [x] else [];
      ProfileFileNamesAppend(a, b');
      assert (a + b)[..|a + b| - 1] == a + b';
      assert (a + b)[|a + b| - 1] == x;
      calc {
        ProfileFileNames(a + b);
        ProfileFileNames(a + b') + tail;
        ProfileFileNames(a) + ProfileFileNames(b') + tail;
        ProfileFileNames(a) + (ProfileFileNames(b') + tail);
        ProfileFileNames(a) + ProfileFileNames(b);
      }
    }
  }

  /** A listing without profile names filters to nothing. */
  lemma {:induction false} NoProfileFileNames(files: seq<string>)
    requires forall i :: 0 <= i < |files| ==> !IsProfileFileName(files[i])
    decreases |files|
    ensures ProfileFileNames(files) == []
  {
    if files != [] {
      var p := files[..|files| - 1];
      assert forall i :: 0 <= i < |p| ==> p[i] == files[i];
      NoProfileFileNames(p);
    }
  }

  /** `i` is the first profile file name of the listing. */
  predicate FirstProfileAt(files: seq<string>, i: int)
  {
    0 <= i < |files| && IsProfileFileName(files[i])
    && forall j :: 0 <= j < i ==> !IsProfileFileName(files[j])
  }

  /** `allFiles.find(f => f.endsWith('.mobileprovision'))`. */
  function FirstProfileFile(files: seq<string>): (r: Option<string>)
    decreases |files|
    ensures r.None? <==> forall i :: 0 <= i < |files| ==> !IsProfileFileName(files[i])
    ensures r.Some? ==> exists i :: FirstProfileAt(files, i) && r.value == files[i]
  {
    if files == [] then None
    else if IsProfileFileName(files[0]) then
      assert FirstProfileAt(files, 0);
      Some(files[0])
    else
      var r := FirstProfileFile(files[1..]);
      assert forall i :: 0 <= i < |files[1..]| ==> files[1..][i] == files[i + 1];
      if r.Some? then
        var i :| FirstProfileAt(files[1..], i) && r.value == files[1..][i];
        assert FirstProfileAt(files, i + 1);
        r
      else
        r
  }

  /** The filter lists the first profile file name first. */
  lemma {:induction false} FirstFilteredAt(files: seq<string>, i: int)
    requires FirstProfileAt(files, i)
    ensures ProfileFileNames(files) != [] && ProfileFileNames(files)[0] == files[i]
  {
    var before, x, after := files[..i], files[i], files[i + 1..];
    assert files == (before + [x]) + after;
    assert forall j :: 0 <= j < |before| ==> before[j] == files[j];
    NoProfileFileNames(before);
    assert ProfileFileNames([x]) == [x] by {
      assert [x][..0] == [];
    }
    ProfileFileNamesAppend(before, [x]);
    assert ProfileFileNames(before + [x]) == [x];
    ProfileFileNamesAppend(before + [x], after);
  }

  /** The file `find` picks is the one the filter lists first. */
  lemma FirstProfileFileIsFirstFiltered(files: seq<string>)
    ensures FirstProfileFile(files).None? <==> ProfileFileNames(files) == []
    ensures FirstProfileFile(files).Some? ==> FirstProfileFile(files).value == ProfileFileNames(files)[0]
  {
    var r := FirstProfileFile(files);
    if r.Some? {
      var i :| FirstProfileAt(files, i) && r.value == files[i];
      FirstFilteredAt(files, i);
    } else {
      NoProfileFileNames(files);
    }
  }

  /** `${uuid}.mobileprovision`: a profile file name again, whose stem is the UUID (the text
      "undefined" when the profile has none). */
  function RenamedFileName(uuid: Option<string>): (r: string)
    ensures IsProfileFileName(r)
    ensures r[..|r| - |ProfileSuffix|] == Template(uuid)
  {
    var r := Template(uuid) + ProfileSuffix;
    assert r[|r| - |ProfileSuffix|..] == ProfileSuffix;
    r
  }

  // ---------------------------------------------------------------- the per-file loop

  /** The folders one run of the loop works in. */
  datatype Folders = Folders(
    extracted: string,       // where the zip was extracted; holds the profiles
    pluginProfiles: string,  // <plugin dir>/provisioning-profiles
    platformApp: string,     // <root>/platforms/<platform>/app
    appFolderExists: bool)   // checkIfFolderExists(platformApp)

  /** What the loop does with one profile: rename `source` to `renamed`, copy that into the
      plugin folder and, when the platform app folder exists, into it. */
  datatype FileStep = FileStep(source: string, renamed: string, pluginCopy: string,
                               appCopy: Option<string>)

  function StepFor(folders: Folders, fileName: string, uuid: Option<string>): (r: FileStep)
    ensures r.source == PathJoin(folders.extracted, fileName)
    ensures r.renamed == PathJoin(folders.extracted, RenamedFileName(uuid))
    ensures r.pluginCopy == PathJoin(folders.pluginProfiles, RenamedFileName(uuid))
    ensures r.appCopy.Some? <==> folders.appFolderExists
    ensures r.appCopy.Some? ==> r.appCopy.value == PathJoin(folders.platformApp, RenamedFileName(uuid))
  {
    var renamed := RenamedFileName(uuid);
    FileStep(PathJoin(folders.extracted, fileName), PathJoin(folders.extracted, renamed),
             PathJoin(folders.pluginProfiles, renamed),
             if folders.appFolderExists then Some(PathJoin(folders.platformApp, renamed)) else None)
  }

  /** The loop's variables: `profileDataList`, the steps taken, and whether decoding threw
      (which ends the `forEach` and the hook). */
  datatype LoopState<R> = LoopState(records: seq<R>, steps: seq<FileStep>, failed: bool)

  /** The loop over `names`, as a fold over the processed prefix. */
  function ProfileLoop<R>(names: seq<string>, folders: Folders, extract: string -> Option<R>,
                          uuidOf: R -> Option<string>): LoopState<R>
    decreases |names|
  {
    if names == [] then LoopState([], [], false)
    else
      var prev := ProfileLoop(names[..|names| - 1], folders, extract, uuidOf);
      var fileName := names[|names| - 1];
      if prev.failed then prev
      else match extract(PathJoin(folders.extracted, fileName))
        case None => prev.(failed := true)
        case Some(rec) =>
          LoopState(prev.records + [rec], prev.steps + [StepFor(folders, fileName, uuidOf(rec))], false)
  }

  /** One more file: the fold over `names[..i + 1]` is one loop pass after the fold over
      `names[..i]`. */
  lemma ProfileLoopStep<R>(names: seq<string>, i: nat, folders: Folders,
                           extract: string -> Option<R>, uuidOf: R -> Option<string>)
    requires i < |names|
    ensures var prev := ProfileLoop(names[..i], folders, extract, uuidOf);
      var next := ProfileLoop(names[..i + 1], folders, extract, uuidOf);
      var decoded := extract(PathJoin(folders.extracted, names[i]));
      (prev.failed ==> next == prev)
      && (!prev.failed && decoded.None? ==> next == prev.(failed := true))
      && (!prev.failed && decoded.Some? ==>
            next == LoopState(prev.records + [decoded.value],
                              prev.steps + [StepFor(folders, names[i], uuidOf(decoded.value))], false))
  {
    assert names[..i + 1][..i] == names[..i];
  }

  /** One record and one step per decoded file; all files are decoded unless the loop
      failed. */
  lemma {:induction false} ProfileLoopSizes<R>(names: seq<string>, folders: Folders,
                                                extract: string -> Option<R>, uuidOf: R -> Option<string>)
    decreases |names|
    ensures var r := ProfileLoop(names, folders, extract, uuidOf);
      |r.records| == |r.steps| <= |names| && (!r.failed ==> |r.records| == |names|)
  {
    if names != [] {
      var n := |names| - 1;
      ProfileLoopSizes(names[..n], folders, extract, uuidOf);
      ProfileLoopStep(names, n, folders, extract, uuidOf);
      assert names[..n + 1] == names;
    }
  }

  /** Each record is decoded from its file, and each step renames that file to the record's
      UUID. */
  lemma {:induction false} ProfileLoopRecords<R>(names: seq<string>, folders: Folders,
                                                  extract: string -> Option<R>, uuidOf: R -> Option<string>)
    decreases |names|
    ensures var r := ProfileLoop(names, folders, extract, uuidOf);
      forall i :: 0 <= i < |r.records| && i < |r.steps| && i < |names| ==>
        extract(PathJoin(folders.extracted, names[i])) == Some(r.records[i])
        && r.steps[i] == StepFor(folders, names[i], uuidOf(r.records[i]))
  {
    if names != [] {
      var n := |names| - 1;
      var p := names[..n];
      ProfileLoopRecords(p, folders, extract, uuidOf);
      ProfileLoopSizes(p, folders, extract, uuidOf);
      ProfileLoopStep(names, n, folders, extract, uuidOf);
      assert names[..n + 1] == names;
      var prev := ProfileLoop(p, folders, extract, uuidOf);
      var r := ProfileLoop(names, folders, extract, uuidOf);
      forall i | 0 <= i < |r.records| && i < |r.steps| && i < |names|
        ensures extract(PathJoin(folders.extracted, names[i])) == Some(r.records[i])
        ensures r.steps[i] == StepFor(folders, names[i], uuidOf(r.records[i]))
      {
        if i < |prev.records| {
          assert p[i] == names[i];
          assert r.records[i] == prev.records[i] && r.steps[i] == prev.steps[i];
        }
      }
    }
  }

  /** A failed loop stopped at the first file after the decoded ones, and that file does not
      decode. */
  lemma {:induction false} ProfileLoopFailsAt<R>(names: seq<string>, folders: Folders,
                                                 extract: string -> Option<R>, uuidOf: R -> Option<string>)
    decreases |names|
    ensures var r := ProfileLoop(names, folders, extract, uuidOf);
      r.failed ==> |r.records| < |names|
                   && extract(PathJoin(folders.extracted, names[|r.records|])).None?
  {
    if names != [] {
      var n := |names| - 1;
      var p := names[..n];
      ProfileLoopFailsAt(p, folders, extract, uuidOf);
      ProfileLoopSizes(p, folders, extract, uuidOf);
      ProfileLoopStep(names, n, folders, extract, uuidOf);
      assert names[..n + 1] == names;
      var prev := ProfileLoop(p, folders, extract, uuidOf);
      if prev.failed {
        assert p[|prev.records|] == names[|prev.records|];
      }
    }
  }

  /** The loop fails exactly when some file cannot be decoded. */
  lemma ProfileLoopFailsIff<R>(names: seq<string>, folders: Folders,
                               extract: string -> Option<R>, uuidOf: R -> Option<string>)
    ensures var r := ProfileLoop(names, folders, extract, uuidOf);
      r.failed <==> exists i :: 0 <= i < |names| && extract(PathJoin(folders.extracted, names[i])).None?
  {
    var r := ProfileLoop(names, folders, extract, uuidOf);
    ProfileLoopSizes(names, folders, extract, uuidOf);
    ProfileLoopRecords(names, folders, extract, uuidOf);
    ProfileLoopFailsAt(names, folders, extract, uuidOf);
    if !r.failed {
      forall i | 0 <= i < |names|
        ensures extract(PathJoin(folders.extracted, names[i])).Some?
      {
        assert extract(PathJoin(folders.extracted, names[i])) == Some(r.records[i]);
      }
    }
  }

  /** Every step the loop records renames its file inside the extracted folder to the file
      name of its record's UUID, copies that into the plugin folder, and copies it into the
      platform app folder exactly when that folder exists. */
  lemma ProfileLoopCopies<R>(names: seq<string>, folders: Folders,
                             extract: string -> Option<R>, uuidOf: R -> Option<string>)
    ensures var r := ProfileLoop(names, folders, extract, uuidOf);
      forall i :: 0 <= i < |r.steps| ==>
        i < |names| && i < |r.records|
        && r.steps[i].source == PathJoin(folders.extracted, names[i])
        && r.steps[i].renamed == PathJoin(folders.extracted, RenamedFileName(uuidOf(r.records[i])))
        && r.steps[i].pluginCopy == PathJoin(folders.pluginProfiles, RenamedFileName(uuidOf(r.records[i])))
        && (r.steps[i].appCopy.Some? <==> folders.appFolderExists)
        && (r.steps[i].appCopy.Some? ==>
              r.steps[i].appCopy.value == PathJoin(folders.platformApp, RenamedFileName(uuidOf(r.records[i]))))
  {
    ProfileLoopSizes(names, folders, extract, uuidOf);
    ProfileLoopRecords(names, folders, extract, uuidOf);
  }

  /** The loop decodes the files in order and stops at the first that fails to decode: one
      record and one step per file before it, each record decoded from its file and each step
      renaming that file to its record's UUID; with no failure, one per file. */
  lemma ProfileLoopSpec<R>(names: seq<string>, folders: Folders,
                           extract: string -> Option<R>, uuidOf: R -> Option<string>)
    ensures var r := ProfileLoop(names, folders, extract, uuidOf);
      |r.records| == |r.steps| <= |names|
      && (!r.failed ==> |r.records| == |names|)
      && (r.failed ==> |r.records| < |names|
                       && extract(PathJoin(folders.extracted, names[|r.records|])).None?)
      && (forall i :: 0 <= i < |r.records| ==>
            extract(PathJoin(folders.extracted, names[i])) == Some(r.records[i])
            && r.steps[i] == StepFor(folders, names[i], uuidOf(r.records[i])))
      && (r.failed <==> exists i :: 0 <= i < |names| && extract(PathJoin(folders.extracted, names[i])).None?)
  {
    ProfileLoopSizes(names, folders, extract, uuidOf);
    ProfileLoopRecords(names, folders, extract, uuidOf);
    ProfileLoopFailsAt(names, folders, extract, uuidOf);
    ProfileLoopFailsIff(names, folders, extract, uuidOf);
  }

  /** Once decoding has failed, later files change nothing. */
  lemma {:induction false} ProfileLoopFailureSticks<R>(a: seq<string>, b: seq<string>, folders: Folders,
                                                       extract: string -> Option<R>,
                                                       uuidOf: R -> Option<string>)
    requires ProfileLoop(a, folders, extract, uuidOf).failed
    decreases |b|
    ensures ProfileLoop(a + b, folders, extract, uuidOf) == ProfileLoop(a, folders, extract, uuidOf)
  {
    if b == [] {
      assert a + b == a;
    } else {
      ProfileLoopFailureSticks(a, b[..|b| - 1], folders, extract, uuidOf);
      assert (a + b)[..|a + b| - 1] == a + b[..|b| - 1];
    }
  }

  /** The `profileFiles.forEach`: per file, decode, rename to `<uuid>.mobileprovision`, copy
      to the plugin folder and, when it exists, the platform app folder, and push the record.
      `failed` reports the exception that ends the loop. */
  method ProcessProfileFiles<R>(names: seq<string>, folders: Folders, extract: string -> Option<R>,
                                uuidOf: R -> Option<string>)
    returns (records: seq<R>, steps: seq<FileStep>, failed: bool)
    ensures LoopState(records, steps, failed) == ProfileLoop(names, folders, extract, uuidOf)
  {
    records, steps, failed := [], [], false;
    var i := 0;
    while i < |names| && !failed
      invariant 0 <= i <= |names|
      invariant LoopState(records, steps, failed) == ProfileLoop(names[..i], folders, extract, uuidOf)
    {
      var fileName := names[i];
      var info := extract(PathJoin(folders.extracted, fileName));
      ProfileLoopStep(names, i, folders, extract, uuidOf);
      if info.None? {
        failed := true;
      } else {
        var renamedFileName := RenamedFileName(uuidOf(info.value));
        var step := FileStep(PathJoin(folders.extracted, fileName),
                             PathJoin(folders.extracted, renamedFileName),
                             PathJoin(folders.pluginProfiles, renamedFileName),
                             if folders.appFolderExists then Some(PathJoin(folders.platformApp, renamedFileName))
                             else None);
        assert step == StepFor(folders, fileName, uuidOf(info.value));
        records := records + [info.value];
        steps := steps + [step];
      }
      i := i + 1;
    }
    ProfileLoopStopped(names, i, folders, extract, uuidOf);
  }

  /** Where the loop leaves off: at the end of the files, or at a failure, after which the
      remaining files change nothing. */
  lemma ProfileLoopStopped<R>(names: seq<string>, i: nat, folders: Folders,
                              extract: string -> Option<R>, uuidOf: R -> Option<string>)
    requires i <= |names|
    requires i == |names| || ProfileLoop(names[..i], folders, extract, uuidOf).failed
    ensures ProfileLoop(names, folders, extract, uuidOf) == ProfileLoop(names[..i], folders, extract, uuidOf)
  {
    if i < |names| {
      ProfileLoopFailedPrefix(names, i, |names|, folders, extract, uuidOf);
    }
    assert names[..|names|] == names;
  }

  /** Once the fold over `names[..i]` has failed, every longer prefix folds to the same state. */
  lemma {:induction false} ProfileLoopFailedPrefix<R>(names: seq<string>, i: nat, j: nat, folders: Folders,
                                                      extract: string -> Option<R>,
                                                      uuidOf: R -> Option<string>)
    requires i <= j <= |names|
    requires ProfileLoop(names[..i], folders, extract, uuidOf).failed
    decreases j - i
    ensures ProfileLoop(names[..j], folders, extract, uuidOf) == ProfileLoop(names[..i], folders, extract, uuidOf)
  {
    if i < j {
      ProfileLoopFailedPrefix(names, i, j - 1, folders, extract, uuidOf);
      ProfileLoopStep(names, j - 1, folders, extract, uuidOf);
    }
  }
}
