/** hooks/patch_exportOptions.js: adds the second target's provisioning profile to
    `platforms/ios/exportOptions.plist`. The parsed plist is a dictionary updated in place:
    `provisioningProfiles` is created when it is falsy, the bundle identifier is mapped to the
    profile UUID, and `signingStyle` is forced to "manual". The file runs in strict mode, so
    assigning a key on a `provisioningProfiles` that is a truthy string, number or boolean
    throws a `TypeError`. */
module PatchExportOptions {
  import opened Wrappers

  /** A property-list value as `plist.parse` returns it (dates, data and reals left out). */
  datatype PlistValue =
    | PString(s: string)
    | PInteger(i: int)
    | PBoolean(b: bool)
    | PArray(items: seq<PlistValue>)
    | PDict(entries: map<string, PlistValue>)

  /** JavaScript truthiness of a parsed value: the empty string, 0 and `false` are falsy;
      arrays and objects are truthy. */
  predicate IsTruthy(v: PlistValue)
  {
    match v
    case PString(s) => s != ""
    case PInteger(i) => i != 0
    case PBoolean(b) => b
    case PArray(_) => true
    case PDict(_) => true
  }

  const ProfilesKey: string := "provisioningProfiles"
  const SigningStyleKey: string := "signingStyle"
  const Manual: PlistValue := PString("manual")

  /** `provisioningProfiles` is missing or falsy, so line 26 replaces it with `{}`. */
  predicate NeedsFreshProfiles(d: map<string, PlistValue>)
  {
    ProfilesKey !in d || !IsTruthy(d[ProfilesKey])
  }

  /** The assignment on line 27 throws: the existing value is a truthy primitive. */
  predicate ThrowsOnAssign(d: map<string, PlistValue>)
  {
    !NeedsFreshProfiles(d) && !d[ProfilesKey].PDict? && !d[ProfilesKey].PArray?
  }

  /** The dictionary after lines 26-28, or `None` when line 27 throws. A named property set
      on an array is not an element, so `plist.build` drops it: an array comes out unchanged. */
  function Patched(d: map<string, PlistValue>, bundleId: string, uuid: string): (r: Option<map<string, PlistValue>>)
    ensures r.None? <==> ThrowsOnAssign(d)
    ensures r.Some? ==> r.value.Keys == d.Keys + {ProfilesKey, SigningStyleKey}
    ensures r.Some? ==> r.value[SigningStyleKey] == Manual
    ensures r.Some? ==> forall k :: k in d && k != ProfilesKey && k != SigningStyleKey ==>
      r.value[k] == d[k]
    ensures r.Some? && NeedsFreshProfiles(d) ==>
      r.value[ProfilesKey] == PDict(map[bundleId := PString(uuid)])
    ensures r.Some? && !NeedsFreshProfiles(d) && d[ProfilesKey].PDict? ==>
      r.value[ProfilesKey] == PDict(d[ProfilesKey].entries[bundleId := PString(uuid)])
    ensures r.Some? && !NeedsFreshProfiles(d) && d[ProfilesKey].PArray? ==>
      r.value[ProfilesKey] == d[ProfilesKey]
  {
    var profiles := if NeedsFreshProfiles(d) then PDict(map[]) else d[ProfilesKey];
    match profiles
    case PDict(m) => Some(d[ProfilesKey := PDict(m[bundleId := PString(uuid)])][SigningStyleKey := Manual])
    case PArray(_) => Some(d[ProfilesKey := profiles][SigningStyleKey := Manual])
    case _ => None
  }

  /** After the update the profile map holds `bundleId -> uuid` and keeps every other entry
      it had. */
  lemma PatchSetsEntry(d: map<string, PlistValue>, bundleId: string, uuid: string)
    requires !ThrowsOnAssign(d)
    requires NeedsFreshProfiles(d) || d[ProfilesKey].PDict?
    ensures var p := Patched(d, bundleId, uuid).value[ProfilesKey];
      p.PDict? && bundleId in p.entries && p.entries[bundleId] == PString(uuid)
    ensures !NeedsFreshProfiles(d) ==>
      var before := d[ProfilesKey].entries;
      var p := Patched(d, bundleId, uuid).value[ProfilesKey].entries;
      p.Keys == before.Keys + {bundleId}
      && forall k :: k in before && k != bundleId ==> p[k] == before[k]
  {
  }

  /** Applying the update twice with the same data gives the same dictionary as once. */
  lemma PatchIdempotent(d: map<string, PlistValue>, bundleId: string, uuid: string)
    requires Patched(d, bundleId, uuid).Some?
    ensures Patched(Patched(d, bundleId, uuid).value, bundleId, uuid) == Patched(d, bundleId, uuid)
  {
    var once := Patched(d, bundleId, uuid).value;
    var twice := Patched(once, bundleId, uuid).value;
    if once[ProfilesKey].PDict? {
      var m := once[ProfilesKey].entries;
      assert m[bundleId := PString(uuid)] == m;
    }
    assert once[SigningStyleKey] == Manual;
    assert twice == once[ProfilesKey := once[ProfilesKey]][SigningStyleKey := Manual];
    assert once[ProfilesKey := once[ProfilesKey]][SigningStyleKey := Manual] == once;
  }

  /** The parsed `exportOptions.plist`, a top-level dictionary the hook updates in place. */
  class ExportOptions {
    var entries: map<string, PlistValue>

    constructor(parsed: map<string, PlistValue>)
      ensures entries == parsed
    {
      entries := parsed;
    }

    /** Lines 26-28. `ok` is false when line 27 throws; the dictionary is then unchanged,
        since line 26 does nothing to a truthy value. */
    method ApplyPatch(bundleId: string, uuid: string) returns (ok: bool)
      modifies this
      ensures ok <==> Patched(old(entries), bundleId, uuid).Some?
      ensures ok ==> entries == Patched(old(entries), bundleId, uuid).value
      ensures !ok ==> entries == old(entries)
    {
      if ProfilesKey !in entries || !IsTruthy(entries[ProfilesKey]) {
        entries := entries[ProfilesKey := PDict(map[])];
      }
      var profiles := entries[ProfilesKey];
      if profiles.PDict? {
        entries := entries[ProfilesKey := PDict(profiles.entries[bundleId := PString(uuid)])];
      } else if !profiles.PArray? {
        return false;
      }
      entries := entries[SigningStyleKey := Manual];
      ok := true;
    }
  }

  /** How the hook ends. */
  datatype Outcome =
    | NoPatchFile      // patch_export_options.json missing: nothing read, nothing written
    | NoExportPlist    // exportOptions.plist missing: nothing read, nothing written
    | Threw            // the `TypeError` of line 27: nothing written
    | Written          // `plist.build(exportPlist)` written back

  /** The hook, given which files exist, the patch data, and the parsed plist. */
  method PatchExportOptionsHook(patchFileExists: bool, plistExists: bool, bundleId: string,
                                uuid: string, plist: ExportOptions) returns (outcome: Outcome)
    modifies plist
    ensures !patchFileExists ==> outcome == NoPatchFile && plist.entries == old(plist.entries)
    ensures patchFileExists && !plistExists ==>
      outcome == NoExportPlist && plist.entries == old(plist.entries)
    ensures patchFileExists && plistExists ==>
      (outcome == Threw <==> Patched(old(plist.entries), bundleId, uuid).None?)
    ensures outcome == Written <==>
      patchFileExists && plistExists && Patched(old(plist.entries), bundleId, uuid).Some?
    ensures outcome != Written ==> plist.entries == old(plist.entries)
    ensures outcome == Written ==> plist.entries == Patched(old(plist.entries), bundleId, uuid).value
  {
    if !patchFileExists {
      return NoPatchFile;
    }
    if !plistExists {
      return NoExportPlist;
    }
    var ok := plist.ApplyPatch(bundleId, uuid);
    outcome := if ok then Written else Threw;
  }
}
