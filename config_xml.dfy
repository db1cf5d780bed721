/** The project name lookup shared by hooks/create_target2.js and hooks/create_target3.js:
    `configXml.match(/<name>(.*?)<\/name>/)` followed by `match[1].trim()`, with `null` when
    there is no match. JavaScript's `.` does not match a line terminator, so the name must sit
    on the line of its opening tag; `.*?` is lazy, so the closing tag is the nearest one. */
module ConfigXml {
  import opened Wrappers
  import opened JsText

  const OpenTag: string := "<name>"
  const CloseTag: string := "</name>"

  /** The characters `.` does not match. */
  predicate IsLineTerminator(c: char)
  {
    c == '\n' || c == '\r' || c == '\U{2028}' || c == '\U{2029}'
  }

  /** `s[a..b]` holds no line terminator. */
  predicate OnOneLine(s: string, a: int, b: int)
  {
    forall k :: a <= k < b && 0 <= k < |s| ==> !IsLineTerminator(s[k])
  }

  /** The regular expression matches with the opening tag at `p` and the closing tag at `e`;
      the captured group is `s[p + |OpenTag|..e]`. */
  predicate ElementAt(s: string, p: int, e: int)
  {
    MatchAt(s, OpenTag, p) && p + |OpenTag| <= e && MatchAt(s, CloseTag, e)
    && OnOneLine(s, p + |OpenTag|, e)
  }

  /** The nearest closing tag at or after `q` that can be reached from the group start `a`
      without crossing a line terminator. */
  function CloseTagFrom(s: string, a: nat, q: nat): (r: Option<nat>)
    requires a <= q && OnOneLine(s, a, q)
    decreases |s| - q
    ensures r.Some? ==> q <= r.value && MatchAt(s, CloseTag, r.value) && OnOneLine(s, a, r.value)
    ensures r.Some? ==> forall e :: q <= e < r.value ==> !MatchAt(s, CloseTag, e)
    ensures r.None? ==> forall e :: q <= e && MatchAt(s, CloseTag, e) ==> !OnOneLine(s, a, e)
  {
    if |s| < q + |CloseTag| then None
    else if s[q..q + |CloseTag|] == CloseTag then Some(q)
    else if IsLineTerminator(s[q]) then
      assert forall e :: q < e ==> !OnOneLine(s, a, e);
      None
    else CloseTagFrom(s, a, q + 1)
  }

  /** The leftmost match at or after `p`: the opening tag position and the closing tag
      position. */
  function NameElementFrom(s: string, p: nat): (r: Option<(nat, nat)>)
    decreases |s| - p
    ensures r.Some? ==> p <= r.value.0 && ElementAt(s, r.value.0, r.value.1)
    ensures r.Some? ==> forall p', e :: p <= p' < r.value.0 ==> !ElementAt(s, p', e)
    ensures r.Some? ==> forall e :: e < r.value.1 ==> !ElementAt(s, r.value.0, e)
    ensures r.None? ==> forall p', e :: p <= p' ==> !ElementAt(s, p', e)
  {
    if |s| < p + |OpenTag| then None
    else
      var a := p + |OpenTag|;
      if s[p..a] == OpenTag && CloseTagFrom(s, a, a).Some? then
        Some((p, CloseTagFrom(s, a, a).value))
      else
        NameElementFrom(s, p + 1)
  }

  /** `projectName`: the trimmed group of the leftmost match, `None` for `null`. It is
      defined exactly when some `<name>` is followed on its line by a `</name>`. */
  function ProjectName(configXml: string): (r: Option<string>)
    ensures r.None? <==> forall p, e :: !ElementAt(configXml, p, e)
    ensures r.Some? ==> exists p, e ::
      ElementAt(configXml, p, e)
      && (forall p', e' :: p' < p ==> !ElementAt(configXml, p', e'))
      && (forall e' :: e' < e ==> !ElementAt(configXml, p, e'))
      && r.value == Trim(configXml[p + |OpenTag|..e])
  {
    match NameElementFrom(configXml, 0)
    case None => None
    case Some((p, e)) => Some(Trim(configXml[p + |OpenTag|..e]))
  }
}
