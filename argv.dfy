/** The two ways the hooks read `KEY=value` parameters out of `process.argv`.

    Both match a key with a substring test (`arg.includes(key)`), so a key also matches any
    argument that merely contains it.
    - First truthy wins: `if (arg.includes(key)) v ||= arg.split("=")[1];` keeps the first
      non-empty value and never overwrites it.
    - Last wins: `if (arg.includes(nameKey)) name = last piece; else if (arg.includes(bundleKey))
      bundle = last piece;` overwrites on every match, and an argument matching the name key is
      never used for the bundle. */
module Argv {
  import opened Wrappers
  import opened JsText

  // ---------------------------------------------------------------- first truthy wins

  /** The argument carries a non-empty value for `key`. */
  predicate SuppliesValue(arg: string, key: string)
  {
    Contains(arg, key) && Truthy(SecondSegment(arg, '='))
  }

  /** `i` is the first argument that carries a non-empty value for `key`. */
  predicate FirstSupplier(args: seq<string>, key: string, i: int)
  {
    0 <= i < |args| && SuppliesValue(args[i], key)
    && forall j :: 0 <= j < i ==> !SuppliesValue(args[j], key)
  }

  /** One `if (arg.includes(key)) acc ||= arg.split("=")[1];`. */
  function OrAssign(acc: Option<string>, arg: string, key: string): Option<string>
  {
    if Contains(arg, key) && !Truthy(acc) then SecondSegment(arg, '=') else acc
  }

  /** The value after the `forEach` over `args`, starting from `init`. */
  function FirstTruthyValue(init: Option<string>, args: seq<string>, key: string): Option<string>
    decreases |args|
  {
    if args == [] then init
    else OrAssign(FirstTruthyValue(init, args[..|args| - 1], key), args[|args| - 1], key)
  }

  /** A truthy starting value is kept; otherwise the value is the one of the first argument
      that supplies a non-empty value; and the result is truthy exactly when the start value
      is or some argument supplies one. */
  lemma {:induction false} FirstTruthyValueSpec(init: Option<string>, args: seq<string>, key: string)
    ensures Truthy(init) ==> FirstTruthyValue(init, args, key) == init
    ensures !Truthy(init) ==> forall i :: FirstSupplier(args, key, i) ==>
      FirstTruthyValue(init, args, key) == SecondSegment(args[i], '=')
    ensures Truthy(FirstTruthyValue(init, args, key)) <==>
      Truthy(init) || exists i :: 0 <= i < |args| && SuppliesValue(args[i], key)
  {
    if args != [] {
      var p := args[..|args| - 1];
      var x := args[|args| - 1];
      FirstTruthyValueSpec(init, p, key);
      var prev := FirstTruthyValue(init, p, key);
      assert forall i :: 0 <= i < |p| ==> p[i] == args[i];
      if !Truthy(init) {
        forall i | FirstSupplier(args, key, i)
          ensures FirstTruthyValue(init, args, key) == SecondSegment(args[i], '=')
        {
          if i < |p| {
            assert FirstSupplier(p, key, i);
          } else {
            assert !Truthy(prev);
          }
        }
      }
      if Truthy(FirstTruthyValue(init, args, key)) && !Truthy(init) && !Truthy(prev) {
        assert SuppliesValue(args[|args| - 1], key);
      }
    }
  }

  /** Once a value is truthy, later arguments never overwrite it. */
  lemma {:induction false} LaterArgumentsNeverOverwrite(init: Option<string>, a: seq<string>,
                                                        b: seq<string>, key: string)
    requires Truthy(FirstTruthyValue(init, a, key))
    ensures FirstTruthyValue(init, a + b, key) == FirstTruthyValue(init, a, key)
  {
    if b != [] {
      LaterArgumentsNeverOverwrite(init, a, b[..|b| - 1], key);
      assert (a + b)[..|a + b| - 1] == a + b[..|b| - 1];
    } else {
      assert a + b == a;
    }
  }

  // ---------------------------------------------------------------- last wins

  /** The `targetName` and `bundleID` variables of a last-wins fold. */
  datatype TargetArgs = TargetArgs(targetName: Option<string>, bundleID: Option<string>)

  /** The argument is used for the bundle identifier: it matches the bundle key and not the
      name key (the `else if`). */
  predicate BundleArgument(arg: string, nameKey: string, bundleKey: string)
  {
    !Contains(arg, nameKey) && Contains(arg, bundleKey)
  }

  /** One pass of the loop body:
      `if (arg.includes(nameKey)) { targetName = last piece } else if (arg.includes(bundleKey))
      { bundleID = last piece }`. */
  function LastWinsStep(acc: TargetArgs, arg: string, nameKey: string, bundleKey: string): TargetArgs
  {
    if Contains(arg, nameKey) then acc.(targetName := Some(LastSegment(arg, '=')))
    else if Contains(arg, bundleKey) then acc.(bundleID := Some(LastSegment(arg, '=')))
    else acc
  }

  /** The two variables after the `forEach` over `args`, both starting undefined. */
  function LastWinsScan(args: seq<string>, nameKey: string, bundleKey: string): TargetArgs
    decreases |args|
  {
    if args == [] then TargetArgs(None, None)
    else LastWinsStep(LastWinsScan(args[..|args| - 1], nameKey, bundleKey), args[|args| - 1],
                      nameKey, bundleKey)
  }

  /** The `args.forEach` loop of the last-wins hooks: each matching argument reassigns its
      variable with the text after its last `=` (`parts[parts.length - 1]` or
      `parts.slice(-1).pop()`). */
  method ReadLastWins(args: seq<string>, nameKey: string, bundleKey: string)
    returns (targetName: Option<string>, bundleID: Option<string>)
    ensures TargetArgs(targetName, bundleID) == LastWinsScan(args, nameKey, bundleKey)
  {
    targetName, bundleID := None, None;
    for i := 0 to |args|
      invariant TargetArgs(targetName, bundleID) == LastWinsScan(args[..i], nameKey, bundleKey)
    {
      var arg := args[i];
      if Contains(arg, nameKey) {
        var parts := Split(arg, '=');
        targetName := Some(parts[|parts| - 1]);
      } else if Contains(arg, bundleKey) {
        var parts := Split(arg, '=');
        bundleID := Some(parts[|parts| - 1]);
      }
      assert args[..i + 1][..i] == args[..i];
    }
    assert args[..|args|] == args;
  }

  /** `i` is the last argument that matches the name key. */
  predicate LastNameArgument(args: seq<string>, nameKey: string, i: int)
  {
    0 <= i < |args| && Contains(args[i], nameKey)
    && forall j :: i < j < |args| ==> !Contains(args[j], nameKey)
  }

  /** `i` is the last argument used for the bundle identifier. */
  predicate LastBundleArgument(args: seq<string>, nameKey: string, bundleKey: string, i: int)
  {
    0 <= i < |args| && BundleArgument(args[i], nameKey, bundleKey)
    && forall j :: i < j < |args| ==> !BundleArgument(args[j], nameKey, bundleKey)
  }

  /** The name is undefined if no argument matches the name key. */
  lemma {:induction false} NoNameArgument(args: seq<string>, nameKey: string, bundleKey: string)
    requires forall i :: 0 <= i < |args| ==> !Contains(args[i], nameKey)
    ensures LastWinsScan(args, nameKey, bundleKey).targetName == None
  {
    if args != [] {
      var p := args[..|args| - 1];
      assert forall j :: 0 <= j < |p| ==> p[j] == args[j];
      NoNameArgument(p, nameKey, bundleKey);
    }
  }

  /** The bundle identifier is undefined if no argument matches the bundle key without
      matching the name key. */
  lemma {:induction false} NoBundleArgument(args: seq<string>, nameKey: string, bundleKey: string)
    requires forall i :: 0 <= i < |args| ==> !BundleArgument(args[i], nameKey, bundleKey)
    ensures LastWinsScan(args, nameKey, bundleKey).bundleID == None
  {
    if args != [] {
      var p := args[..|args| - 1];
      assert forall j :: 0 <= j < |p| ==> p[j] == args[j];
      NoBundleArgument(p, nameKey, bundleKey);
    }
  }

  /** The name is the last `=`-piece of the last argument matching the name key. */
  lemma {:induction false} LastWinsNameSpec(args: seq<string>, nameKey: string, bundleKey: string)
    ensures forall i :: LastNameArgument(args, nameKey, i) ==>
      LastWinsScan(args, nameKey, bundleKey).targetName == Some(LastSegment(args[i], '='))
  {
    if args != [] {
      var p, x := args[..|args| - 1], args[|args| - 1];
      LastWinsNameSpec(p, nameKey, bundleKey);
      var prev := LastWinsScan(p, nameKey, bundleKey);
      var r := LastWinsScan(args, nameKey, bundleKey);
      assert r == LastWinsStep(prev, x, nameKey, bundleKey);
      assert forall j :: 0 <= j < |p| ==> p[j] == args[j];
      forall i | LastNameArgument(args, nameKey, i)
        ensures r.targetName == Some(LastSegment(args[i], '='))
      {
        if i < |p| {
          assert !Contains(x, nameKey);
          assert LastNameArgument(p, nameKey, i) by {
            forall j | i < j < |p| ensures !Contains(p[j], nameKey) {
              assert p[j] == args[j];
            }
          }
        } else {
          assert x == args[i];
        }
      }
    }
  }

  /** The bundle identifier is the last `=`-piece of the last argument matching the bundle key
      but not the name key. */
  lemma {:induction false} LastWinsBundleSpec(args: seq<string>, nameKey: string, bundleKey: string)
    ensures forall i :: LastBundleArgument(args, nameKey, bundleKey, i) ==>
      LastWinsScan(args, nameKey, bundleKey).bundleID == Some(LastSegment(args[i], '='))
  {
    if args != [] {
      var p, x := args[..|args| - 1], args[|args| - 1];
      LastWinsBundleSpec(p, nameKey, bundleKey);
      var prev := LastWinsScan(p, nameKey, bundleKey);
      var r := LastWinsScan(args, nameKey, bundleKey);
      assert r == LastWinsStep(prev, x, nameKey, bundleKey);
      assert forall j :: 0 <= j < |p| ==> p[j] == args[j];
      forall i | LastBundleArgument(args, nameKey, bundleKey, i)
        ensures r.bundleID == Some(LastSegment(args[i], '='))
      {
        if i < |p| {
          assert !BundleArgument(x, nameKey, bundleKey);
          assert LastBundleArgument(p, nameKey, bundleKey, i) by {
            forall j | i < j < |p| ensures !BundleArgument(p[j], nameKey, bundleKey) {
              assert p[j] == args[j];
            }
          }
        } else {
          assert x == args[i];
        }
      }
    }
  }

  /** An argument that matches the name key leaves the bundle identifier as it was, even when
      it also contains the bundle key. */
  lemma NameArgumentNeverSetsBundle(args: seq<string>, arg: string, nameKey: string, bundleKey: string)
    requires Contains(arg, nameKey)
    ensures LastWinsScan(args + [arg], nameKey, bundleKey).bundleID
         == LastWinsScan(args, nameKey, bundleKey).bundleID
    ensures LastWinsScan(args + [arg], nameKey, bundleKey).targetName == Some(LastSegment(arg, '='))
  {
    assert (args + [arg])[..|args|] == args;
  }
}
