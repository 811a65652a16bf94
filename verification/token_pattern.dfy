/**
 The regular expression `/access_token=([^;]+)/` applied with `String.match`:
 the leftmost position where the marker is followed by at least one non-`;`
 character, and the greedy run of non-`;` characters after the marker as
 capture group 1. The marker is not anchored to a cookie-name boundary.
 */
module TokenPattern {
  import opened Http

  const Marker: string := "access_token="

  /** The pattern matches starting at position `i` of `s`. */
  predicate MatchesAt(s: string, i: nat) {
    i + |Marker| < |s| && s[i..i + |Marker|] == Marker && s[i + |Marker|] != ';'
  }

  /** The longest run of non-`;` characters of `s` starting at `j`. */
  function RunFrom(s: string, j: nat): (r: string)
    requires j <= |s|
    ensures j + |r| <= |s| && s[j..j + |r|] == r
    ensures ';' !in r
    ensures j + |r| == |s| || s[j + |r|] == ';'
    decreases |s| - j
  {
    if j == |s| || s[j] == ';' then "" else [s[j]] + RunFrom(s, j + 1)
  }

  /** The leftmost match position at or after `i`. */
  function FirstMatchFrom(s: string, i: nat): (k: Option<nat>)
    ensures k.Some? ==> i <= k.value && MatchesAt(s, k.value)
    ensures k.Some? ==> forall m :: i <= m < k.value ==> !MatchesAt(s, m)
    ensures k.None? ==> forall m :: i <= m ==> !MatchesAt(s, m)
    decreases |s| - i
  {
    if |s| <= i + |Marker| then None
    else if MatchesAt(s, i) then Some(i)
    else FirstMatchFrom(s, i + 1)
  }

  /** Capture group 1 of the match, or `None` when `match` returns null. */
  function MatchToken(s: string): (t: Option<string>)
    ensures t.None? <==> forall m: nat :: !MatchesAt(s, m)
    ensures t.Some? ==> t.value != "" && ';' !in t.value
  {
    match FirstMatchFrom(s, 0)
    case None => None
    case Some(k) => Some(RunFrom(s, k + |Marker|))
  }

  /**
   The capture is exactly the run that follows the leftmost occurrence of the
   marker that is followed by a non-`;` character.
   */
  lemma MatchTokenLeftmost(s: string, k: nat)
    requires MatchesAt(s, k)
    requires forall m :: 0 <= m < k ==> !MatchesAt(s, m)
    ensures MatchToken(s) == Some(RunFrom(s, k + |Marker|))
  {
    assert FirstMatchFrom(s, 0).Some?;
  }

  /** The first cookie string the pattern matches yields the token; later ones are not read. */
  function FirstToken(cookies: seq<string>): (t: Option<string>)
    ensures t.None? <==> forall j :: 0 <= j < |cookies| ==> MatchToken(cookies[j]).None?
    ensures t.Some? ==> t.value != "" && ';' !in t.value
    decreases |cookies|
  {
    if |cookies| == 0 then None
    else match MatchToken(cookies[0])
      case Some(v) => Some(v)
      case None => FirstToken(cookies[1..])
  }

  /** The token comes from the first cookie string that matches, whatever follows it. */
  lemma {:induction false} FirstTokenIsFirstMatch(cookies: seq<string>, j: nat, later: seq<string>)
    requires j < |cookies| && MatchToken(cookies[j]).Some?
    requires forall m :: 0 <= m < j ==> MatchToken(cookies[m]).None?
    ensures FirstToken(cookies) == MatchToken(cookies[j])
    ensures FirstToken(cookies + later) == MatchToken(cookies[j])
    decreases j
  {
    if j > 0 {
      assert (cookies + later)[1..] == cookies[1..] + later;
      FirstTokenIsFirstMatch(cookies[1..], j - 1, later);
    } else {
      assert (cookies + later)[0] == cookies[0];
    }
  }
}
