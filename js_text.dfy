/** The JavaScript string operations the hooks are built from, over `seq<char>`:
    `indexOf`/`includes`, `replace` with a string pattern, `split`, `trim`, `endsWith`,
    template-literal interpolation of a possibly undefined value, and truthiness. */
module JsText {
  import opened Wrappers

  /** `pat` occurs in `s` starting at index `i`. */
  predicate MatchAt(s: string, pat: string, i: int)
  {
    0 <= i && i + |pat| <= |s| && s[i..i + |pat|] == pat
  }

  /** `i` is the first index at which `pat` occurs in `s`. */
  predicate FirstMatch(s: string, pat: string, i: int)
  {
    MatchAt(s, pat, i) && forall j :: 0 <= j < i ==> !MatchAt(s, pat, j)
  }

  /** The first occurrence of `pat` in `s` at or after `from`. */
  function IndexOfFrom(s: string, pat: string, from: nat): (r: Option<nat>)
    decreases |s| - from
    ensures r.Some? ==> from <= r.value && MatchAt(s, pat, r.value)
    ensures r.Some? ==> forall j :: from <= j < r.value ==> !MatchAt(s, pat, j)
    ensures r.None? ==> forall j :: from <= j ==> !MatchAt(s, pat, j)
  {
    if |s| < from + |pat| then None
    else if s[from..from + |pat|] == pat then Some(from)
    else IndexOfFrom(s, pat, from + 1)
  }

  /** `s.indexOf(pat)`, with `None` for -1. */
  function IndexOf(s: string, pat: string): (r: Option<nat>)
    ensures r.Some? ==> FirstMatch(s, pat, r.value)
    ensures r.None? ==> forall j :: !MatchAt(s, pat, j)
  {
    IndexOfFrom(s, pat, 0)
  }

  /** `s.includes(pat)`. */
  predicate Contains(s: string, pat: string)
  {
    IndexOf(s, pat).Some?
  }

  lemma ContainsAt(s: string, pat: string, i: int)
    requires MatchAt(s, pat, i)
    ensures Contains(s, pat)
  {
  }

  /** `s.replace(pat, rep)` with a string pattern: only the first occurrence of `pat` is
      replaced, and a string without `pat` comes back unchanged. (`$` patterns in `rep` are
      not interpreted; the hooks' replacement texts carry none.) */
  function ReplaceFirst(s: string, pat: string, rep: string): (r: string)
    ensures (forall i :: !MatchAt(s, pat, i)) ==> r == s
    ensures forall i :: FirstMatch(s, pat, i) ==> r == s[..i] + rep + s[i + |pat|..]
  {
    match IndexOf(s, pat)
    case None => s
    case Some(i) => s[..i] + rep + s[i + |pat|..]
  }

  /** What `ReplaceFirst` keeps: the text before the first occurrence, the replacement in
      its place, and the text after the occurrence, shifted by the difference in length. */
  lemma ReplaceFirstParts(s: string, pat: string, rep: string, i: int)
    requires FirstMatch(s, pat, i)
    ensures |ReplaceFirst(s, pat, rep)| == |s| - |pat| + |rep|
    ensures ReplaceFirst(s, pat, rep)[..i] == s[..i]
    ensures MatchAt(ReplaceFirst(s, pat, rep), rep, i)
    ensures ReplaceFirst(s, pat, rep)[i + |rep|..] == s[i + |pat|..]
  {
    var r := ReplaceFirst(s, pat, rep);
    assert r == s[..i] + rep + s[i + |pat|..];
    assert r[i..i + |rep|] == rep;
  }

  /** The first occurrence is unique. */
  lemma FirstMatchUnique(s: string, pat: string, i: int)
    requires FirstMatch(s, pat, i)
    ensures IndexOf(s, pat) == Some(i)
  {
    var j := IndexOf(s, pat).value;
    assert !(j < i) && !(i < j);
  }

  /** Splicing `ins` in front of an occurrence of `pat` at `i`, as a sequence identity. */
  lemma SpliceBefore(s: string, i: nat, pat: string, ins: string)
    requires i + |pat| <= |s| && s[i..i + |pat|] == pat
    ensures s[..i] + (ins + pat) + s[i + |pat|..] == s[..i] + ins + s[i..]
  {
    var after := s[i + |pat|..];
    assert s[i..] == s[i..i + |pat|] + after;
    assert s[..i] + (ins + pat) + after == s[..i] + ins + (pat + after);
  }

  /** In `a + b + c + d`, `b` sits right after `a` and the text ends with `d`. */
  lemma ConcatParts(a: string, b: string, c: string, d: string)
    ensures MatchAt(a + b + c + d, b, |a|) && EndsWith(a + b + c + d, d)
  {
    var s := a + b + c + d;
    assert s[|a|..|a| + |b|] == b;
    assert s[|s| - |d|..] == d;
  }

  /** Splicing `ins` after an occurrence of `pat` at `i`, as a sequence identity. */
  lemma SpliceAfter(s: string, i: nat, pat: string, ins: string)
    requires i + |pat| <= |s| && s[i..i + |pat|] == pat
    ensures s[..i] + (pat + ins) + s[i + |pat|..] == s[..i + |pat|] + ins + s[i + |pat|..]
  {
    assert s[..i + |pat|] == s[..i] + s[i..i + |pat|];
    assert s[..i] + (pat + ins) == (s[..i] + pat) + ins;
  }

  /** Replacing `pat` by `pat + ins` inserts `ins` right after the first occurrence. */
  lemma InsertAfterFirst(s: string, pat: string, ins: string, i: int)
    requires FirstMatch(s, pat, i)
    ensures ReplaceFirst(s, pat, pat + ins) == s[..i + |pat|] + ins + s[i + |pat|..]
  {
    assert ReplaceFirst(s, pat, pat + ins) == s[..i] + (pat + ins) + s[i + |pat|..];
    SpliceAfter(s, i, pat, ins);
  }

  /** `InsertAfterFirst` stated for whichever index is the first match. */
  lemma InsertAfterIndexOf(s: string, pat: string, ins: string)
    requires Contains(s, pat)
    ensures forall i :: FirstMatch(s, pat, i) ==>
      ReplaceFirst(s, pat, pat + ins) == s[..i + |pat|] + ins + s[i + |pat|..]
  {
    var k := IndexOf(s, pat).value;
    InsertAfterFirst(s, pat, ins, k);
    forall i | FirstMatch(s, pat, i)
      ensures i == k
    {
      FirstMatchUnique(s, pat, i);
    }
  }

  /** Replacing `pat` by `ins + pat` inserts `ins` right before the first occurrence. */
  lemma InsertBeforeFirst(s: string, pat: string, ins: string, i: int)
    requires FirstMatch(s, pat, i)
    ensures ReplaceFirst(s, pat, ins + pat) == s[..i] + ins + s[i..]
  {
    assert ReplaceFirst(s, pat, ins + pat) == s[..i] + (ins + pat) + s[i + |pat|..];
    SpliceBefore(s, i, pat, ins);
  }

  /** An occurrence inside an occurrence. */
  lemma MatchWithin(s: string, outer: string, i: int, inner: string, k: int)
    requires MatchAt(s, outer, i) && MatchAt(outer, inner, k)
    ensures MatchAt(s, inner, i + k)
  {
    forall j | 0 <= j < |inner|
      ensures s[i + k..i + k + |inner|][j] == inner[j]
    {
      assert s[i + k + j] == s[i..i + |outer|][k + j];
      assert outer[k + j] == outer[k..k + |inner|][j];
    }
    assert s[i + k..i + k + |inner|] == inner;
  }

  /** What a first-occurrence replacement keeps: the text before the occurrence, any text
      `inner` inside the replacement (shifted to the occurrence), and, after a `tail` the
      replacement ends with, the text that followed the occurrence. */
  lemma ReplaceFirstKeeps(s: string, pat: string, rep: string, i: int, inner: string, k: int,
                          tail: string)
    requires FirstMatch(s, pat, i) && MatchAt(rep, inner, k) && EndsWith(rep, tail)
    ensures var r := ReplaceFirst(s, pat, rep);
      |r| == |s| - |pat| + |rep| && r[..i] == s[..i] && MatchAt(r, inner, i + k)
      && EndsWith(r, tail + s[i + |pat|..])
  {
    var r := ReplaceFirst(s, pat, rep);
    ReplaceFirstParts(s, pat, rep, i);
    MatchWithin(r, rep, i, inner, k);
    var t := |rep| - |tail|;
    assert MatchAt(rep, tail, t);
    MatchWithin(r, rep, i, tail, t);
    var after := s[i + |pat|..];
    assert r[i + t..] == r[i + t..i + |rep|] + r[i + |rep|..];
    assert r[|r| - |tail + after|..] == tail + after;
  }

  /** A replacement that itself contains `pat` leaves `pat` in the text, so the same
      replacement applies again. */
  lemma ReplacementKeepsPattern(s: string, pat: string, rep: string, k: int)
    requires Contains(s, pat) && MatchAt(rep, pat, k)
    ensures Contains(ReplaceFirst(s, pat, rep), pat)
  {
    var i := IndexOf(s, pat).value;
    var r := ReplaceFirst(s, pat, rep);
    ReplaceFirstParts(s, pat, rep, i);
    MatchWithin(r, rep, i, pat, k);
    ContainsAt(r, pat, i + k);
  }

  /** `s.endsWith(suffix)`. */
  predicate EndsWith(s: string, suffix: string)
  {
    |suffix| <= |s| && s[|s| - |suffix|..] == suffix
  }

  /** The characters `String.prototype.trim` removes: ECMAScript WhiteSpace and
      LineTerminator. */
  predicate IsWhiteSpace(c: char)
  {
    c == '\t' || c == '\n' || c == '\U{000B}' || c == '\U{000C}' || c == '\r' || c == ' '
    || c == '\U{00A0}' || c == '\U{1680}' || ('\U{2000}' <= c <= '\U{200A}')
    || c == '\U{2028}' || c == '\U{2029}' || c == '\U{202F}' || c == '\U{205F}'
    || c == '\U{3000}' || c == '\U{FEFF}'
  }

  function TrimStart(s: string): (r: string)
    decreases |s|
    ensures |r| <= |s| && r == s[|s| - |r|..]
    ensures forall k :: 0 <= k < |s| - |r| ==> IsWhiteSpace(s[k])
    ensures r == [] || !IsWhiteSpace(r[0])
  {
    if s != [] && IsWhiteSpace(s[0]) then TrimStart(s[1..]) else s
  }

  function TrimEnd(s: string): (r: string)
    decreases |s|
    ensures |r| <= |s| && r == s[..|r|]
    ensures forall k :: |r| <= k < |s| ==> IsWhiteSpace(s[k])
    ensures r == [] || !IsWhiteSpace(r[|r| - 1])
  {
    if s != [] && IsWhiteSpace(s[|s| - 1]) then TrimEnd(s[..|s| - 1]) else s
  }

  /** `s.trim()`: the longest stretch of `s` that neither starts nor ends with white space,
      obtained by removing only white space at both ends. */
  function Trim(s: string): (r: string)
    ensures r == [] || (!IsWhiteSpace(r[0]) && !IsWhiteSpace(r[|r| - 1]))
    ensures var a := |s| - |TrimStart(s)|;
      a + |r| <= |s| && r == s[a..a + |r|]
      && (forall k :: 0 <= k < a ==> IsWhiteSpace(s[k]))
      && (forall k :: a + |r| <= k < |s| ==> IsWhiteSpace(s[k]))
  {
    TrimEnd(TrimStart(s))
  }

  /** Joins `parts` with `sep` between consecutive parts (`parts.join(sep)`). */
  function JoinWith(parts: seq<string>, sep: char): string
    decreases |parts|
  {
    if |parts| == 0 then ""
    else if |parts| == 1 then parts[0]
    else parts[0] + [sep] + JoinWith(parts[1..], sep)
  }

  /** `s.split(sep)` for a one-character separator: the pieces between the separators. */
  function Split(s: string, sep: char): (parts: seq<string>)
    decreases |s|
    ensures |parts| >= 1
    ensures forall i :: 0 <= i < |parts| ==> sep !in parts[i]
  {
    if s == [] then [""]
    else
      var rest := Split(s[1..], sep);
      if s[0] == sep then [""] + rest
      else [[s[0]] + rest[0]] + rest[1..]
  }

  /** Joining after a new first piece puts a separator after it. */
  lemma JoinCons(h: string, parts: seq<string>, sep: char)
    requires |parts| >= 1
    ensures JoinWith([h] + parts, sep) == h + [sep] + JoinWith(parts, sep)
  {
    assert ([h] + parts)[1..] == parts;
  }

  /** Joining after a character is prepended to the first piece prepends it to the joined
      text. */
  lemma JoinPrepend(c: char, parts: seq<string>, sep: char)
    requires |parts| >= 1
    ensures JoinWith([[c] + parts[0]] + parts[1..], sep) == [c] + JoinWith(parts, sep)
  {
    if |parts| > 1 {
      JoinCons([c] + parts[0], parts[1..], sep);
      JoinCons(parts[0], parts[1..], sep);
      assert [parts[0]] + parts[1..] == parts;
    }
  }

  /** Joining the pieces of a split with the separator gives the string back. */
  lemma {:induction false} SplitJoin(s: string, sep: char)
    decreases |s|
    ensures JoinWith(Split(s, sep), sep) == s
  {
    if s != [] {
      var rest := Split(s[1..], sep);
      SplitJoin(s[1..], sep);
      if s[0] == sep {
        JoinCons("", rest, sep);
      } else {
        JoinPrepend(s[0], rest, sep);
      }
      assert [s[0]] + s[1..] == s;
    }
  }

  /** `s.split(sep)[1]`: the second piece, undefined when `s` has no separator. */
  function SecondSegment(s: string, sep: char): Option<string>
  {
    var parts := Split(s, sep);
    if |parts| >= 2 then Some(parts[1]) else None
  }

  /** `parts[parts.length - 1]` of `s.split(sep)`: the last piece. */
  function LastSegment(s: string, sep: char): string
  {
    var parts := Split(s, sep);
    parts[|parts| - 1]
  }

  /** The first piece of a split is the text before the first separator. */
  lemma {:induction false} FirstSegmentSpec(s: string, sep: char)
    decreases |s|
    ensures var h := Split(s, sep)[0];
      |h| <= |s| && h == s[..|h|] && sep !in h && (|h| < |s| ==> s[|h|] == sep)
  {
    if s != [] && s[0] != sep {
      FirstSegmentSpec(s[1..], sep);
      var g := Split(s[1..], sep)[0];
      assert Split(s, sep)[0] == [s[0]] + g;
      assert s[..|g| + 1] == [s[0]] + s[1..][..|g|];
    }
  }

  /** Splitting at the first separator: the first piece is what precedes it, the remaining
      pieces are the split of what follows it. */
  lemma {:induction false} SplitAtFirst(s: string, sep: char, i: nat)
    requires i < |s| && s[i] == sep && sep !in s[..i]
    ensures Split(s, sep) == [s[..i]] + Split(s[i + 1..], sep)
  {
    if i > 0 {
      assert s[1..][i - 1] == sep && s[1..][..i - 1] == s[1..i];
      SplitAtFirst(s[1..], sep, i - 1);
      assert s[1..][i..] == s[i + 1..];
      assert [s[0]] + s[1..i] == s[..i];
    }
  }

  /** With its first separator at `i`, `s.split(sep)[1]` is defined and is the text between
      that separator and the next one (or the end). */
  lemma SecondSegmentSpec(s: string, sep: char, i: nat)
    requires i < |s| && s[i] == sep && sep !in s[..i]
    ensures SecondSegment(s, sep).Some?
    ensures var v := SecondSegment(s, sep).value;
      i + 1 + |v| <= |s| && v == s[i + 1..i + 1 + |v|] && sep !in v
      && (i + 1 + |v| < |s| ==> s[i + 1 + |v|] == sep)
  {
    SplitAtFirst(s, sep, i);
    var t := s[i + 1..];
    FirstSegmentSpec(t, sep);
    var v := Split(t, sep)[0];
    assert t[..|v|] == s[i + 1..i + 1 + |v|];
  }

  /** A string without a separator splits into itself alone. */
  lemma {:induction false} SplitWithoutSeparator(s: string, sep: char)
    requires sep !in s
    ensures Split(s, sep) == [s]
  {
    if s != [] {
      SplitWithoutSeparator(s[1..], sep);
      assert [s[0]] + s[1..] == s;
    }
  }

  /** The index of the first separator in `s`. */
  function FirstSeparator(s: string, sep: char): (i: nat)
    requires sep in s
    ensures i < |s| && s[i] == sep && sep !in s[..i]
  {
    if s[0] == sep then 0
    else
      assert sep in s[1..];
      var j := FirstSeparator(s[1..], sep);
      assert s[..j + 1] == [s[0]] + s[1..][..j];
      j + 1
  }

  /** `s.split(sep)[1]` is defined exactly when `s` holds a separator. */
  lemma SecondSegmentDefined(s: string, sep: char)
    ensures SecondSegment(s, sep).Some? <==> sep in s
  {
    if sep in s {
      SecondSegmentSpec(s, sep, FirstSeparator(s, sep));
    } else {
      SplitWithoutSeparator(s, sep);
    }
  }

  /** The last piece of a split is the text after the last separator (all of `s` when it
      has none): a suffix of `s` free of separators and preceded by one. */
  lemma {:induction false} LastSegmentSpec(s: string, sep: char)
    decreases |s|
    ensures var r := LastSegment(s, sep);
      |r| <= |s| && r == s[|s| - |r|..] && sep !in r
      && (|r| < |s| ==> s[|s| - |r| - 1] == sep)
  {
    if sep !in s {
      SplitWithoutSeparator(s, sep);
    } else {
      var i := FirstSeparator(s, sep);
      var t := s[i + 1..];
      LastSegmentAfterFirst(s, sep, i);
      LastSegmentSpec(t, sep);
      var r := LastSegment(t, sep);
      assert s[|s| - |r|..] == t[|t| - |r|..];
      if |r| == |t| {
        assert |s| - |r| - 1 == i;
      } else {
        assert s[|s| - |r| - 1] == t[|t| - |r| - 1];
      }
    }
  }

  /** The last piece does not change when the text up to the first separator is dropped. */
  lemma LastSegmentAfterFirst(s: string, sep: char, i: nat)
    requires i < |s| && s[i] == sep && sep !in s[..i]
    ensures LastSegment(s, sep) == LastSegment(s[i + 1..], sep)
  {
    SplitAtFirst(s, sep, i);
  }

  /** The piece after a separator that is followed only by separator-free text is the last
      piece. */
  lemma {:induction false} LastSegmentOfTail(pre: string, sep: char, v: string)
    requires sep !in v
    decreases |pre|
    ensures LastSegment(pre + [sep] + v, sep) == v
  {
    var s := pre + [sep] + v;
    SplitWithoutSeparator(v, sep);
    if sep !in pre {
      assert s[..|pre|] == pre && s[|pre|] == sep;
      SplitAtFirst(s, sep, |pre|);
      assert s[|pre| + 1..] == v;
      assert Split(s, sep) == [pre] + [v];
    } else {
      var i := FirstSeparator(pre, sep);
      var tail := pre[i + 1..];
      SlicesAround(pre, [sep] + v, i);
      assert s == pre + ([sep] + v);
      SplitAtFirst(s, sep, i);
      LastSegmentOfTail(tail, sep, v);
      assert tail + [sep] + v == tail + ([sep] + v);
      var parts := Split(tail + [sep] + v, sep);
      assert Split(s, sep) == [s[..i]] + parts;
      assert Split(s, sep)[|Split(s, sep)| - 1] == parts[|parts| - 1];
    }
  }

  /** Slicing `pre + rest` at a position inside `pre`. */
  lemma SlicesAround(pre: string, rest: string, i: nat)
    requires i < |pre|
    ensures (pre + rest)[..i] == pre[..i] && (pre + rest)[i] == pre[i]
    ensures (pre + rest)[i + 1..] == pre[i + 1..] + rest
  {
  }

  /** The second piece of `pre=v`, when neither side holds a separator, is `v`. */
  lemma SecondSegmentOfPair(pre: string, sep: char, v: string)
    requires sep !in pre && sep !in v
    ensures SecondSegment(pre + [sep] + v, sep) == Some(v)
  {
    var s := pre + [sep] + v;
    assert s[..|pre|] == pre;
    SplitAtFirst(s, sep, |pre|);
    assert s[|pre| + 1..] == v;
    SplitWithoutSeparator(v, sep);
  }

  /** JavaScript truthiness of a string value that may be undefined: `undefined` and `""`
      are falsy. */
  predicate Truthy(v: Option<string>)
  {
    v.Some? && v.value != ""
  }

  /** `${v}` in a template literal: an undefined value is rendered as "undefined". */
  function Template(v: Option<string>): (r: string)
    ensures v.Some? ==> r == v.value
    ensures v.None? ==> r == "undefined"
  {
    match v
    case None => "undefined"
    case Some(s) => s
  }

  /** Rendering loses information only in one place: an undefined value and the string
      "undefined" render alike. */
  lemma TemplateCollision(a: Option<string>, b: Option<string>)
    ensures Template(a) == Template(b) <==>
      a == b || (a.None? && b == Some("undefined")) || (b.None? && a == Some("undefined"))
  {
  }

  /** Joins two path segments with `/` (normalisation is not modelled). */
  function PathJoin(dir: string, name: string): string
  {
    dir + "/" + name
  }
}
