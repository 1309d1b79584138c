/**
 * Camera choice from the browser's user-agent string: a case-insensitive
 * search for any of a fixed list of platform markers selects the rear
 * camera ("environment"), anything else the front camera ("user").
 */
module FacingMode {

  /** The alternatives of the marker pattern, in the order they are written. */
  const Markers: seq<string> :=
    ["Android", "webOS", "iPhone", "iPad", "Mac", "Macintosh", "iPod", "BlackBerry", "IEMobile", "Opera Mini"]

  const Environment: string := "environment"
  const User: string := "user"

  /**
   * Case folding for a regular expression with the `i` flag and without the
   * `u` flag: only 'A'..'Z' and 'a'..'z' are identified with each other, and
   * no character outside ASCII folds onto an ASCII letter.
   */
  function LowerAscii(c: char): (r: char)
    ensures 'A' <= c <= 'Z' ==> r as int == c as int + 32 && 'a' <= r <= 'z'
    ensures !('A' <= c <= 'Z') ==> r == c
  {
    if 'A' <= c <= 'Z' then (c as int - 'A' as int + 'a' as int) as char else c
  }

  function Lower(s: string): (r: string)
    ensures |r| == |s|
    ensures forall i :: 0 <= i < |s| ==> r[i] == LowerAscii(s[i])
  {
    if s == [] then [] else [LowerAscii(s[0])] + Lower(s[1..])
  }

  /** Reference meaning of the pattern: `marker` occurs in `ua` at `pos`, letters compared case-insensitively. */
  ghost predicate MatchesAt(ua: string, marker: string, pos: nat) {
    pos + |marker| <= |ua| &&
    forall k :: 0 <= k < |marker| ==> LowerAscii(ua[pos + k]) == LowerAscii(marker[k])
  }

  /** Reference meaning of the test: some alternative matches somewhere in `ua`. */
  ghost predicate IsMarkedAgent(ua: string) {
    exists j, pos: nat :: 0 <= j < |Markers| && MatchesAt(ua, Markers[j], pos)
  }

  /** `p` sits in `s` starting at `pos`. */
  predicate OccursAt(p: string, s: string, pos: nat) {
    pos + |p| <= |s| && s[pos..pos + |p|] == p
  }

  /** Plain substring search: is `p` a prefix of some suffix of `s`? */
  function Occurs(p: string, s: string): bool
    decreases |s|
  {
    if |p| <= |s| && s[..|p|] == p then true
    else if s == [] then false
    else Occurs(p, s[1..])
  }

  /** The search finds `p` exactly when it sits somewhere in `s`. */
  lemma {:induction false} OccursIff(p: string, s: string)
    ensures Occurs(p, s) <==> exists pos: nat :: OccursAt(p, s, pos)
    decreases |s|
  {
    if |p| <= |s| && s[..|p|] == p {
      assert OccursAt(p, s, 0);
    } else if s == [] {
    } else {
      OccursIff(p, s[1..]);
      if Occurs(p, s[1..]) {
        var pos: nat :| OccursAt(p, s[1..], pos);
        assert s[pos + 1..pos + 1 + |p|] == s[1..][pos..pos + |p|];
        assert OccursAt(p, s, pos + 1);
      }
      if exists pos: nat :: OccursAt(p, s, pos) {
        var pos: nat :| OccursAt(p, s, pos);
        assert pos != 0;
        assert s[1..][pos - 1..pos - 1 + |p|] == s[pos..pos + |p|];
        assert OccursAt(p, s[1..], pos - 1);
      }
    }
  }

  /** Does any marker occur in the lower-cased agent? Alternatives are tried from `j` on. */
  function AnyMarkerFrom(lowered: string, j: nat): bool
    requires j <= |Markers|
    decreases |Markers| - j
  {
    if j == |Markers| then false
    else Occurs(Lower(Markers[j]), lowered) || AnyMarkerFrom(lowered, j + 1)
  }

  /** The facing mode requested from the camera for a given user agent. */
  function FacingModeFor(userAgent: string): (mode: string)
    ensures mode == Environment || mode == User
  {
    if AnyMarkerFrom(Lower(userAgent), 0) then Environment else User
  }

  /** Lower-casing both sides and comparing is the case-insensitive match. */
  lemma LoweredMatch(ua: string, marker: string, pos: nat)
    ensures OccursAt(Lower(marker), Lower(ua), pos) <==> MatchesAt(ua, marker, pos)
  {
  }

  lemma MarkerOccursIff(ua: string, marker: string)
    ensures Occurs(Lower(marker), Lower(ua)) <==> exists pos: nat :: MatchesAt(ua, marker, pos)
  {
    OccursIff(Lower(marker), Lower(ua));
    if Occurs(Lower(marker), Lower(ua)) {
      var pos: nat :| OccursAt(Lower(marker), Lower(ua), pos);
      LoweredMatch(ua, marker, pos);
    }
    if exists pos: nat :: MatchesAt(ua, marker, pos) {
      var pos: nat :| MatchesAt(ua, marker, pos);
      LoweredMatch(ua, marker, pos);
    }
  }

  lemma {:induction false} AnyMarkerFromIff(ua: string, j: nat)
    requires j <= |Markers|
    ensures AnyMarkerFrom(Lower(ua), j) <==>
      exists i, pos: nat :: j <= i < |Markers| && MatchesAt(ua, Markers[i], pos)
    decreases |Markers| - j
  {
    if j < |Markers| {
      MarkerOccursIff(ua, Markers[j]);
      AnyMarkerFromIff(ua, j + 1);
      if exists i, pos: nat :: j <= i < |Markers| && MatchesAt(ua, Markers[i], pos) {
        var i, pos: nat :| j <= i < |Markers| && MatchesAt(ua, Markers[i], pos);
        if i == j {
          assert exists p: nat :: MatchesAt(ua, Markers[j], p);
        }
      }
    }
  }

  /** "environment" exactly when some marker occurs case-insensitively in the user agent. */
  lemma FacingModeIff(userAgent: string)
    ensures FacingModeFor(userAgent) == Environment <==> IsMarkedAgent(userAgent)
    ensures FacingModeFor(userAgent) == User <==> !IsMarkedAgent(userAgent)
  {
    AnyMarkerFromIff(userAgent, 0);
  }

  /** A marker with a letter that the agent lacks (in either case) cannot match it. */
  lemma MissingLetter(ua: string, marker: string, k: nat)
    requires k < |marker|
    requires forall i :: 0 <= i < |ua| ==> LowerAscii(ua[i]) != LowerAscii(marker[k])
    ensures forall pos: nat :: !MatchesAt(ua, marker, pos)
  {
    forall pos: nat
      ensures !MatchesAt(ua, marker, pos)
    {
      if pos + |marker| <= |ua| {
        assert LowerAscii(ua[pos + k]) != LowerAscii(marker[k]);
      }
    }
  }

  lemma IPhoneIsEnvironment()
    ensures FacingModeFor("Mozilla/5.0 (iPhone; CPU iPhone OS 17_0 like Mac OS X)") == Environment
  {
    var ua := "Mozilla/5.0 (iPhone; CPU iPhone OS 17_0 like Mac OS X)";
    assert MatchesAt(ua, Markers[2], 13);
    FacingModeIff(ua);
  }

  lemma WindowsNotMarked()
    ensures !IsMarkedAgent("Windows NT")
  {
    var ua := "Windows NT";
    MissingLetter(ua, Markers[0], 0);  // a
    MissingLetter(ua, Markers[1], 1);  // e
    MissingLetter(ua, Markers[2], 1);  // P
    MissingLetter(ua, Markers[3], 1);  // P
    MissingLetter(ua, Markers[4], 0);  // M
    MissingLetter(ua, Markers[5], 0);  // M
    MissingLetter(ua, Markers[6], 1);  // P
    MissingLetter(ua, Markers[7], 0);  // B
    MissingLetter(ua, Markers[8], 1);  // E
    MissingLetter(ua, Markers[9], 1);  // p
  }

  lemma WindowsIsUser()
    ensures FacingModeFor("Windows NT") == User
  {
    WindowsNotMarked();
    FacingModeIff("Windows NT");
  }
}
