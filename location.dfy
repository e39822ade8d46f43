/**
 * The application origin, computed at module load from `window.location`
 * (the same three lines open packages/core/src/auth-strategy-manager.ts,
 * src/auth-strategy-manager.ts, src/authorizer.ts and the strategy helper):
 * the first occurrence of `protocol + '//'` is removed from `href`, the rest
 * is cut at its first `/`, and `protocol + '//'` is put back in front.
 */
module Location {
  import opened Common

  /** The first index at or after `from` where `pat` occurs in `s` (what `indexOf` finds). */
  function FindFrom(s: string, pat: string, from: nat): (r: Option<nat>)
    requires from <= |s|
    ensures r.Some? ==> from <= r.value && r.value + |pat| <= |s| && s[r.value..r.value + |pat|] == pat
    decreases |s| - from
  {
    if from + |pat| > |s| then None
    else if s[from..from + |pat|] == pat then Some(from)
    else if from == |s| then None
    else FindFrom(s, pat, from + 1)
  }

  /** `pat` occurs in `s` at index `j`. */
  predicate OccursAt(s: string, pat: string, j: nat) {
    j + |pat| <= |s| && s[j..j + |pat|] == pat
  }

  /** No occurrence at or after `from` is skipped: the search finds one at or before any occurrence. */
  lemma {:induction false} FindFromFirst(s: string, pat: string, from: nat, j: nat)
    requires from <= j && OccursAt(s, pat, j)
    ensures FindFrom(s, pat, from).Some? && FindFrom(s, pat, from).value <= j
    decreases j - from
  {
    if s[from..from + |pat|] != pat {
      FindFromFirst(s, pat, from + 1, j);
    }
  }

  /** The search finds nothing exactly when the pattern does not occur at or after `from`. */
  lemma FindFromNoneIff(s: string, pat: string, from: nat)
    requires from <= |s|
    ensures FindFrom(s, pat, from).None? <==> forall j: nat :: from <= j ==> !OccursAt(s, pat, j)
  {
    if FindFrom(s, pat, from).None? {
      forall j: nat | from <= j
        ensures !OccursAt(s, pat, j)
      {
        if OccursAt(s, pat, j) {
          FindFromFirst(s, pat, from, j);
        }
      }
    } else {
      assert OccursAt(s, pat, FindFrom(s, pat, from).value);
    }
  }

  /** The position found is the first occurrence at or after `from`. */
  lemma FindFromIsFirst(s: string, pat: string, from: nat)
    requires from <= |s|
    requires FindFrom(s, pat, from).Some?
    ensures forall j: nat :: from <= j < FindFrom(s, pat, from).value ==> !OccursAt(s, pat, j)
  {
    forall j: nat | from <= j < FindFrom(s, pat, from).value
      ensures !OccursAt(s, pat, j)
    {
      if OccursAt(s, pat, j) {
        FindFromFirst(s, pat, from, j);
      }
    }
  }

  /** `s.replace(pat, with)` with a string pattern: only the first occurrence is replaced. */
  function ReplaceFirst(s: string, pat: string, with: string): string {
    match FindFrom(s, pat, 0)
    case None => s
    case Some(i) => s[..i] + with + s[i + |pat|..]
  }

  /** `s.split('/')[0]`: everything before the first `/`. */
  function FirstSegment(s: string): (r: string)
    ensures '/' !in r
    ensures |r| <= |s| && r == s[..|r|]
    ensures |r| < |s| ==> s[|r|] == '/'
  {
    if s == [] || s[0] == '/' then [] else [s[0]] + FirstSegment(s[1..])
  }

  /** The `startUrl` constant: `${protocol}//${baseUrl}`. */
  function Origin(protocol: string, href: string): string {
    protocol + "//" + FirstSegment(ReplaceFirst(href, protocol + "//", ""))
  }

  /** What follows the `//` of an origin never contains a `/`: the path is always stripped. */
  lemma OriginHasNoPath(protocol: string, href: string)
    ensures |Origin(protocol, href)| >= |protocol| + 2
    ensures Origin(protocol, href)[..|protocol| + 2] == protocol + "//"
    ensures '/' !in Origin(protocol, href)[|protocol| + 2..]
  {
    var base := FirstSegment(ReplaceFirst(href, protocol + "//", ""));
    assert Origin(protocol, href)[|protocol| + 2..] == base;
  }

  lemma {:induction false} FirstSegmentOf(host: string, path: string)
    requires '/' !in host
    requires path == [] || path[0] == '/'
    ensures FirstSegment(host + path) == host
  {
    if host != [] {
      assert (host + path)[1..] == host[1..] + path;
      FirstSegmentOf(host[1..], path);
    }
  }

  /** For a location `protocol//host/path…`, the origin is `protocol//host`. */
  lemma OriginOfLocation(protocol: string, host: string, path: string)
    requires '/' !in host
    requires path == [] || path[0] == '/'
    ensures Origin(protocol, protocol + "//" + host + path) == protocol + "//" + host
  {
    var pat := protocol + "//";
    var href := pat + host + path;
    assert href[0..|pat|] == pat;
    assert ReplaceFirst(href, pat, "") == host + path;
    FirstSegmentOf(host, path);
  }
}
