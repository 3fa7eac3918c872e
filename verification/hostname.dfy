/**
 Host normalisation on the server: the host component of the parsed URL with
 the string pattern "www." replaced by "" once, as JavaScript's
 `String.prototype.replace` does with a string pattern: only the FIRST
 occurrence is removed, wherever in the host it stands.
 */
module HostName {
  import opened SeqFind

  const WwwPattern: string := "www."

  /** `pat` occurs in `s` starting at index `i`. */
  predicate OccursAt(s: string, pat: string, i: nat)
  {
    i + |pat| <= |s| && s[i..i + |pat|] == pat
  }

  /** `i` is the leftmost occurrence of `pat` in `s`. */
  ghost predicate FirstOccurrence(s: string, pat: string, i: nat)
  {
    OccursAt(s, pat, i) && forall j: nat :: j < i ==> !OccursAt(s, pat, j)
  }

  ghost predicate Contains(s: string, pat: string)
  {
    exists i: nat :: OccursAt(s, pat, i)
  }

  /** Leftmost index at or after `from` where `pat` occurs (`String.prototype.indexOf`). */
  function IndexOfFrom(s: string, pat: string, from: nat): (r: Option<nat>)
    ensures r.Some? ==> from <= r.value && OccursAt(s, pat, r.value)
    ensures r.Some? ==> forall j: nat :: from <= j < r.value ==> !OccursAt(s, pat, j)
    ensures r.None? <==> forall j: nat :: from <= j ==> !OccursAt(s, pat, j)
    decreases |s| - from
  {
    if from + |pat| > |s| then None
    else if s[from..from + |pat|] == pat then assert OccursAt(s, pat, from); Some(from)
    else IndexOfFrom(s, pat, from + 1)
  }

  function IndexOf(s: string, pat: string): (r: Option<nat>)
    ensures r.Some? ==> FirstOccurrence(s, pat, r.value)
    ensures r.None? <==> !Contains(s, pat)
  {
    IndexOfFrom(s, pat, 0)
  }

  /** `s.replace(pat, rep)` for a string pattern and a replacement without `$`
      patterns (JavaScript would expand `$&`, `$$` and the like; the only use here
      replaces with ""). */
  function ReplaceFirst(s: string, pat: string, rep: string): (r: string)
    ensures !Contains(s, pat) ==> r == s
    ensures Contains(s, pat) ==>
      exists i: nat :: FirstOccurrence(s, pat, i) && r == s[..i] + rep + s[i + |pat|..]
    ensures Contains(s, pat) ==> |r| == |s| - |pat| + |rep|
  {
    match IndexOf(s, pat)
    case None => s
    case Some(i) => s[..i] + rep + s[i + |pat|..]
  }

  /** The host that is handed to the reachability probe (server.js, line 63). */
  function NormalizeHost(urlHost: string): (r: string)
    ensures !Contains(urlHost, WwwPattern) ==> r == urlHost
    ensures Contains(urlHost, WwwPattern) ==> |r| == |urlHost| - 4
    ensures Contains(urlHost, WwwPattern) ==>
      exists i: nat :: FirstOccurrence(urlHost, WwwPattern, i) && r == urlHost[..i] + urlHost[i + 4..]
  {
    ReplaceFirst(urlHost, WwwPattern, "")
  }

  /** The host is left alone exactly when it holds no "www.". */
  lemma UnchangedIffNoWww(urlHost: string)
    ensures NormalizeHost(urlHost) == urlHost <==> !Contains(urlHost, WwwPattern)
  {
  }

  /** A leading "www." label is what gets stripped when the host starts with one. */
  lemma LeadingWwwStripped(urlHost: string)
    requires |urlHost| >= 4 && urlHost[..4] == WwwPattern
    ensures NormalizeHost(urlHost) == urlHost[4..]
  {
  }

  /** Only the first "www." goes: "www.www.example.com" keeps its second one. */
  lemma OnlyFirstOccurrenceRemoved()
    ensures NormalizeHost("www.www.example.com") == "www.example.com"
    ensures Contains(NormalizeHost("www.www.example.com"), WwwPattern)
  {
    LeadingWwwStripped("www.www.example.com");
    assert OccursAt("www.example.com", WwwPattern, 0);
  }

  /** The occurrence need not be a leading label: "awww.com" loses "www." from inside
      its first label and becomes "acom". */
  lemma InnerOccurrenceRemoved()
    ensures NormalizeHost("awww.com") == "acom"
  {
    var h := "awww.com";
    assert h[..4][0] == 'a' != WwwPattern[0];
    assert OccursAt(h, WwwPattern, 1);
    assert IndexOf(h, WwwPattern) == Some(1);
  }
}
