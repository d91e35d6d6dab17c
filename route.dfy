/** The request-routing rule installed on the page: images, fonts and any
    URL mentioning "google" are aborted, everything else continues. */
module Route {

  datatype Decision = Abort | Continue

  const Blocked: string := "google"

  /** pat occurs in s starting at index i. */
  predicate OccursAt(s: string, pat: string, i: int)
  {
    0 <= i && i + |pat| <= |s| && s[i..i + |pat|] == pat
  }

  predicate Contains(s: string, pat: string)
  {
    exists i | 0 <= i <= |s| :: OccursAt(s, pat, i)
  }

  /** The first occurrence of pat in s at or after `from`, or -1. */
  function IndexFrom(s: string, pat: string, from: nat): (r: int)
    requires from <= |s|
    ensures r == -1 || (from <= r <= |s| && OccursAt(s, pat, r))
    ensures forall j :: from <= j && (r == -1 || j < r) ==> !OccursAt(s, pat, j)
    decreases |s| - from
  {
    if OccursAt(s, pat, from) then from
    else if from == |s| then -1
    else IndexFrom(s, pat, from + 1)
  }

  /** String.prototype.indexOf: the first occurrence of pat in s, or -1. */
  function IndexOf(s: string, pat: string): (r: int)
    ensures r == -1 <==> !Contains(s, pat)
    ensures r != -1 ==> OccursAt(s, pat, r) && forall j :: 0 <= j < r ==> !OccursAt(s, pat, j)
  {
    IndexFrom(s, pat, 0)
  }

  /** The route callback: abort when the resource type is image or font, or
      when indexOf('google') is above -1. */
  function Decide(resourceType: string, url: string): (d: Decision)
    ensures d == Abort
        <==> resourceType == "image" || resourceType == "font" || Contains(url, Blocked)
  {
    var tmp := IndexOf(url, Blocked);
    if resourceType == "image" || resourceType == "font" || tmp > -1 then Abort else Continue
  }
}
