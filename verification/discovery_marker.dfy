/**
 The REST API discovery marker search on a homepage body. The source hands
 `preg_match` the pattern `<link rel='https\:\/\/api\.w\.org\/' href='(.*)' \/>`,
 whose `<` and `>` are PCRE bracket delimiters, not pattern text. What is matched is

     link rel='https://api.w.org/' href='(.*)' /

 with no modifiers: the match starts at the leftmost possible index, and the greedy
 `.*`, which never crosses a newline, captures the longest text that still lets the
 literal `' /` follow.
 */
module DiscoveryMarker {
  import opened Wrappers
  import opened PhpStrings

  /** Literal text before the capture group. */
  const Head: string := "link rel='https://api.w.org/' href='"

  /** Literal text after the capture group. */
  const Tail: string := "' /"

  // ---------------------------------------------------------------------------
  // What a match is
  // ---------------------------------------------------------------------------

  /** The pattern matches at index `i` with capture `c`. */
  ghost predicate MatchesAt(body: string, i: nat, c: string) {
    i <= |body| && StartsWith(body[i..], Head + c + Tail) && '\n' !in c
  }

  ghost predicate NoMatchAt(body: string, i: nat) {
    forall c :: !MatchesAt(body, i, c)
  }

  /** `c` is what PCRE captures: the match starts at `i`, nothing starts earlier, and no longer capture fits at `i`. */
  ghost predicate LeftmostLongest(body: string, i: nat, c: string) {
    && MatchesAt(body, i, c)
    && (forall j: nat :: j < i ==> NoMatchAt(body, j))
    && (forall c' :: MatchesAt(body, i, c') ==> |c'| <= |c|)
  }

  /** `c` is the capture of the leftmost-longest match in `body`. */
  ghost predicate IsCapture(body: string, c: string) {
    exists i: nat :: LeftmostLongest(body, i, c)
  }

  /** The pattern matches nowhere in `body`. */
  ghost predicate NoMarker(body: string) {
    forall i: nat, c :: !MatchesAt(body, i, c)
  }

  // ---------------------------------------------------------------------------
  // Searching for it
  // ---------------------------------------------------------------------------

  predicate TailAt(body: string, q: nat) {
    q <= |body| && StartsWith(body[q..], Tail)
  }

  /** Index of the first newline at or after `p`, or the end of the body. */
  function LineEnd(body: string, p: nat): (e: nat)
    requires p <= |body|
    ensures p <= e <= |body|
    ensures forall k :: p <= k < e ==> body[k] != '\n'
    ensures e < |body| ==> body[e] == '\n'
    decreases |body| - p
  {
    if p == |body| || body[p] == '\n' then p else LineEnd(body, p + 1)
  }

  /** The largest index in `[lo, hi]` where the tail literal starts, which is where greedy backtracking stops. */
  function LastTail(body: string, lo: nat, hi: nat): (r: Option<nat>)
    requires lo <= hi <= |body|
    ensures r.Some? ==> lo <= r.value <= hi && TailAt(body, r.value)
    ensures r.Some? ==> forall q: nat :: r.value < q <= hi ==> !TailAt(body, q)
    ensures r.None? ==> forall q: nat :: lo <= q <= hi ==> !TailAt(body, q)
    decreases hi - lo
  {
    if TailAt(body, hi) then Some(hi)
    else if hi == lo then None
    else LastTail(body, lo, hi - 1)
  }

  /** A match at `i` is the head literal, then `c` read off the body on the current line, then the tail literal. */
  lemma MatchShape(body: string, i: nat, c: string)
    ensures MatchesAt(body, i, c) ==>
      && StartsWith(body[i..], Head)
      && i + |Head| + |c| <= LineEnd(body, i + |Head|)
      && body[i + |Head|..i + |Head| + |c|] == c
      && TailAt(body, i + |Head| + |c|)
  {
    if MatchesAt(body, i, c) {
      var p := i + |Head|;
      PrefixOfThree(body[i..], Head, c, Tail);
      assert body[p..p + |c|] == body[i..][|Head|..|Head| + |c|];
      assert body[p + |c|..][..|Tail|] == body[i..][|Head| + |c|..|Head| + |c| + |Tail|];
      forall k | p <= k < p + |c|
        ensures body[k] != '\n'
      {
        assert body[k] == c[k - p];
      }
    }
  }

  /** Conversely, the head literal at `i` and the tail literal later on the same line make a match. */
  lemma MatchFromTail(body: string, i: nat, q: nat)
    requires i <= |body| && StartsWith(body[i..], Head)
    requires i + |Head| <= q <= LineEnd(body, i + |Head|)
    requires TailAt(body, q)
    ensures MatchesAt(body, i, body[i + |Head|..q])
  {
    var p := i + |Head|;
    var c := body[p..q];
    PrefixFromSlices(body[i..], Head, q - i, Tail);
    assert body[i..][|Head|..q - i] == c;
    SameLine(body, p, q);
  }

  lemma SameLine(body: string, p: nat, q: nat)
    requires p <= q <= |body| && q <= LineEnd(body, p)
    ensures '\n' !in body[p..q]
  {
    forall k | 0 <= k < q - p
      ensures body[p..q][k] != '\n'
    {
      assert body[p..q][k] == body[p + k];
    }
  }

  /** The capture the pattern yields when the match starts at `i`, if it matches there at all. */
  function CaptureAt(body: string, i: nat): (r: Option<string>)
    requires i <= |body|
    ensures r.Some? ==> MatchesAt(body, i, r.value)
    ensures r.Some? ==> forall c :: MatchesAt(body, i, c) ==> |c| <= |r.value|
    ensures r.None? ==> NoMatchAt(body, i)
  {
    if !StartsWith(body[i..], Head) then
      NoHeadNoMatch(body, i);
      None
    else
      var p := i + |Head|;
      var e := LineEnd(body, p);
      match LastTail(body, p, e)
      case None =>
        NoTailNoMatch(body, i);
        None
      case Some(q) =>
        MatchFromTail(body, i, q);
        LongestCapture(body, i, q);
        Some(body[p..q])
  }

  lemma NoHeadNoMatch(body: string, i: nat)
    requires i <= |body| && !StartsWith(body[i..], Head)
    ensures NoMatchAt(body, i)
  {
    forall c ensures !MatchesAt(body, i, c) {
      MatchShape(body, i, c);
    }
  }

  lemma NoTailNoMatch(body: string, i: nat)
    requires i <= |body| && StartsWith(body[i..], Head)
    requires LastTail(body, i + |Head|, LineEnd(body, i + |Head|)).None?
    ensures NoMatchAt(body, i)
  {
    forall c ensures !MatchesAt(body, i, c) {
      MatchShape(body, i, c);
    }
  }

  lemma LongestCapture(body: string, i: nat, q: nat)
    requires i <= |body| && StartsWith(body[i..], Head)
    requires LastTail(body, i + |Head|, LineEnd(body, i + |Head|)) == Some(q)
    ensures forall c :: MatchesAt(body, i, c) ==> |c| <= q - (i + |Head|)
  {
    forall c | MatchesAt(body, i, c)
      ensures |c| <= q - (i + |Head|)
    {
      MatchShape(body, i, c);
    }
  }

  datatype Hit = Hit(start: nat, capture: string)

  /** The first start index at or after `i` where the pattern matches, with its capture. */
  function FirstMatch(body: string, i: nat): (r: Option<Hit>)
    requires i <= |body|
    ensures r.Some? ==> i <= r.value.start <= |body| && CaptureAt(body, r.value.start) == Some(r.value.capture)
    ensures r.Some? ==> forall j: nat :: i <= j < r.value.start ==> CaptureAt(body, j).None?
    ensures r.None? ==> forall j: nat :: i <= j <= |body| ==> CaptureAt(body, j).None?
    decreases |body| - i
  {
    match CaptureAt(body, i)
    case Some(c) => Some(Hit(i, c))
    case None => if i == |body| then None else FirstMatch(body, i + 1)
  }

  /** The outcome of `preg_match`: no match, or the groups array `[full match, capture]`. */
  datatype PregResult = NoMatch | Matched(groups: seq<string>)

  /**
   `preg_match` of the discovery pattern against a homepage body. A match always
   fills exactly two groups, so the source's `count($matches) !== 2` guard cannot fire.
   */
  function PregMatch(body: string): (r: PregResult)
    ensures r.Matched? ==> |r.groups| == 2
    ensures r.Matched? ==> IsCapture(body, r.groups[1])
    ensures r.NoMatch? <==> NoMarker(body)
  {
    match FirstMatch(body, 0)
    case None =>
      NoMatchAnywhere(body);
      NoMatch
    case Some(h) =>
      FirstMatchIsLeftmostLongest(body);
      Matched([Head + h.capture + Tail, h.capture])
  }

  lemma NoMatchAnywhere(body: string)
    requires FirstMatch(body, 0).None?
    ensures NoMarker(body)
  {
    forall i: nat, c ensures !MatchesAt(body, i, c) {
      if i <= |body| {
        assert CaptureAt(body, i).None?;
      }
    }
  }

  lemma FirstMatchIsLeftmostLongest(body: string)
    requires FirstMatch(body, 0).Some?
    ensures LeftmostLongest(body, FirstMatch(body, 0).value.start, FirstMatch(body, 0).value.capture)
  {
    var h := FirstMatch(body, 0).value;
    forall j: nat | j < h.start
      ensures NoMatchAt(body, j)
    {
      assert CaptureAt(body, j).None?;
    }
  }

  // ---------------------------------------------------------------------------
  // Properties of the search
  // ---------------------------------------------------------------------------

  /** The leftmost-longest capture is determined by the body alone. */
  lemma LeftmostLongestUnique(body: string, i1: nat, c1: string, i2: nat, c2: string)
    requires LeftmostLongest(body, i1, c1) && LeftmostLongest(body, i2, c2)
    ensures i1 == i2 && c1 == c2
  {
    assert !NoMatchAt(body, i1) && !NoMatchAt(body, i2);
    assert MatchesAt(body, i1, c2);
    MatchShape(body, i1, c1);
    MatchShape(body, i1, c2);
  }

  /** A body in which the head literal never occurs carries no marker. */
  lemma NoHeadLiteralNoMarker(body: string)
    requires !Contains(body, Head)
    ensures PregMatch(body).NoMatch?
  {
    ContainsIffOccurs(body, Head);
    forall i: nat, c ensures !MatchesAt(body, i, c) {
      MatchShape(body, i, c);
      StartsWithOccurs(body, Head, i);
    }
  }
}
