/**
 The PHP and WordPress string operations the detector relies on, each given the
 meaning it has in PHP: `strpos(...) !== false`, `str_replace` with an empty
 replacement, `empty()` on the site parameter, and `trailingslashit`.
 */
module PhpStrings {
  import opened Wrappers

  predicate StartsWith(s: string, prefix: string) {
    prefix <= s
  }

  /** `needle` occurs in `s` at index `i`. */
  ghost predicate OccursAt(s: string, needle: string, i: int) {
    0 <= i && i + |needle| <= |s| && s[i..i + |needle|] == needle
  }

  lemma StartsWithOccurs(s: string, needle: string, i: nat)
    ensures i <= |s| && StartsWith(s[i..], needle) ==> OccursAt(s, needle, i)
  {
    if i <= |s| && StartsWith(s[i..], needle) {
      assert s[i..i + |needle|] == s[i..][..|needle|];
    }
  }

  /** Three strings in a row start `s` exactly when each is the slice of `s` where the previous one ends. */
  lemma PrefixOfThree(s: string, x: string, y: string, z: string)
    ensures x + y + z <= s <==>
      && |x| + |y| + |z| <= |s|
      && s[..|x|] == x
      && s[|x|..|x| + |y|] == y
      && s[|x| + |y|..|x| + |y| + |z|] == z
  {
    var n := |x| + |y| + |z|;
    if |x| + |y| + |z| <= |s| {
      assert s[..n] == s[..|x|] + s[|x|..|x| + |y|] + s[|x| + |y|..n];
    }
  }

  /** A prefix `x`, a later slice of `s` up to `q`, and a string `z` found at `q` together start `s`. */
  lemma PrefixFromSlices(s: string, x: string, q: nat, z: string)
    requires x <= s && |x| <= q <= |s| && z <= s[q..]
    ensures x + s[|x|..q] + z <= s
  {
    var y := s[|x|..q];
    assert s[|x| + |y|..|x| + |y| + |z|] == s[q..][..|z|];
    PrefixOfThree(s, x, y, z);
  }

  /** `strpos($s, $needle) !== false`: a substring test anywhere in `s`, not a prefix test. */
  predicate Contains(s: string, needle: string)
    decreases |s|
  {
    StartsWith(s, needle) || (|s| > 0 && Contains(s[1..], needle))
  }

  lemma {:induction false} OccursImpliesContains(s: string, needle: string, i: int)
    requires OccursAt(s, needle, i)
    ensures Contains(s, needle)
    decreases i
  {
    if i == 0 {
      assert s[..|needle|] == needle;
    } else {
      assert s[1..][i - 1..i - 1 + |needle|] == s[i..i + |needle|];
      OccursImpliesContains(s[1..], needle, i - 1);
    }
  }

  /** The scanning definition of `Contains` agrees with "occurs at some index". */
  lemma {:induction false} ContainsIffOccurs(s: string, needle: string)
    ensures Contains(s, needle) <==> exists i :: OccursAt(s, needle, i)
    decreases |s|
  {
    if Contains(s, needle) {
      if StartsWith(s, needle) {
        assert OccursAt(s, needle, 0);
      } else {
        ContainsIffOccurs(s[1..], needle);
        var i :| OccursAt(s[1..], needle, i);
        assert s[1..][i..i + |needle|] == s[i + 1..i + 1 + |needle|];
        assert OccursAt(s, needle, i + 1);
      }
    }
    forall i | OccursAt(s, needle, i)
      ensures Contains(s, needle)
    {
      OccursImpliesContains(s, needle, i);
    }
  }

  /**
   `str_replace($needle, '', $s)`: one left-to-right scan that deletes every
   non-overlapping occurrence it meets. The scan does not revisit its own output,
   so a deletion can leave behind a fresh occurrence.
   */
  function RemoveAll(s: string, needle: string): string
    requires |needle| > 0
    decreases |s|
  {
    if |s| == 0 then s
    else if StartsWith(s, needle) then RemoveAll(s[|needle|..], needle)
    else [s[0]] + RemoveAll(s[1..], needle)
  }

  /** Deleting a needle that does not occur changes nothing. */
  lemma {:induction false} RemoveAllAbsent(s: string, needle: string)
    requires |needle| > 0
    requires !Contains(s, needle)
    ensures RemoveAll(s, needle) == s
    decreases |s|
  {
    if |s| > 0 {
      RemoveAllAbsent(s[1..], needle);
      assert [s[0]] + s[1..] == s;
    }
  }

  /** The scan keeps a prefix none of whose positions starts an occurrence. */
  lemma {:induction false} RemoveAllKeepsPrefix(pre: string, s: string, needle: string)
    requires |needle| > 0
    requires forall k :: 0 <= k < |pre| ==> !StartsWith(pre[k..] + s, needle)
    ensures RemoveAll(pre + s, needle) == pre + RemoveAll(s, needle)
    decreases |pre|
  {
    if |pre| > 0 {
      assert pre[0..] + s == pre + s;
      assert (pre + s)[1..] == pre[1..] + s;
      forall k | 0 <= k < |pre[1..]|
        ensures !StartsWith(pre[1..][k..] + s, needle)
      {
        assert pre[1..][k..] == pre[k + 1..];
      }
      RemoveAllKeepsPrefix(pre[1..], s, needle);
      assert !StartsWith(pre + s, needle);
      calc {
        RemoveAll(pre + s, needle);
        [pre[0]] + RemoveAll(pre[1..] + s, needle);
        [pre[0]] + (pre[1..] + RemoveAll(s, needle));
        { assert [pre[0]] + pre[1..] == pre; }
        pre + RemoveAll(s, needle);
      }
    } else {
      assert pre + s == s;
    }
  }

  /** The scan deletes a leading occurrence and carries on after it. */
  lemma RemoveAllLeading(needle: string, s: string)
    requires |needle| > 0
    ensures RemoveAll(needle + s, needle) == RemoveAll(s, needle)
  {
    assert (needle + s)[|needle|..] == s;
  }

  /** `str_replace(array('http://', 'https://'), '', $s)`: the two needles are removed one after the other. */
  function StripSchemes(s: string): string {
    RemoveAll(RemoveAll(s, "http://"), "https://")
  }

  /** A host behind either scheme comes back bare, provided the host itself names no scheme. */
  lemma StripSchemesOfUrl(host: string)
    requires !Contains(host, "http://") && !Contains(host, "https://")
    ensures StripSchemes("http://" + host) == host
    ensures StripSchemes("https://" + host) == host
  {
    RemoveAllLeading("http://", host);
    RemoveAllAbsent(host, "http://");
    RemoveAllAbsent(host, "https://");
    var secure := "https://";
    forall k | 0 <= k < |secure|
      ensures !StartsWith(secure[k..] + host, "http://")
    {
      if k == 0 {
        assert (secure[k..] + host)[4] == 's';
      } else {
        assert (secure[k..] + host)[0] == secure[k] != 'h';
      }
    }
    RemoveAllKeepsPrefix(secure, host, "http://");
    RemoveAllLeading(secure, host);
  }

  /** PHP's `empty()` on the site parameter: absent, the empty string and the string "0". */
  predicate PhpEmpty(v: Option<string>) {
    v.None? || v.value == "" || v.value == "0"
  }

  predicate IsSlash(c: char) {
    c == '/' || c == '\\'
  }

  /** WordPress's `untrailingslashit`: `rtrim($s, '/\\')`. */
  function Untrailingslashit(s: string): (r: string)
    ensures r <= s
    ensures |r| == 0 || !IsSlash(r[|r| - 1])
    ensures forall k :: |r| <= k < |s| ==> IsSlash(s[k])
    decreases |s|
  {
    if |s| > 0 && IsSlash(s[|s| - 1]) then Untrailingslashit(s[..|s| - 1]) else s
  }

  /** WordPress's `trailingslashit`: strip every trailing slash or backslash, then append one slash. */
  function Trailingslashit(s: string): (r: string)
    ensures |r| > 0 && r[|r| - 1] == '/'
    ensures r[..|r| - 1] <= s
    ensures |r| == 1 || !IsSlash(r[|r| - 2])
    ensures forall k :: |r| - 1 <= k < |s| ==> IsSlash(s[k])
  {
    var r := Untrailingslashit(s) + "/";
    assert r[..|r| - 1] == Untrailingslashit(s);
    r
  }

  lemma TrailingslashitIdempotent(s: string)
    ensures Trailingslashit(Trailingslashit(s)) == Trailingslashit(s)
  {
    var u := Untrailingslashit(s);
    assert (u + "/")[..|u|] == u;
  }
}
