/** Python's `str.replace` and `str.join`, for a non-empty pattern. `Split` is not
  * called by the source: it is a reference definition that characterises `replace`. */
module Text {

  /** `s.replace(pat, rep)`: every occurrence of `pat`, scanned left to right without
    * overlap, is replaced by `rep`. */
  function ReplaceAll(s: string, pat: string, rep: string): string
    requires pat != []
    decreases |s|
  {
    if |s| < |pat| then s
    else if s[..|pat|] == pat then rep + ReplaceAll(s[|pat|..], pat, rep)
    else [s[0]] + ReplaceAll(s[1..], pat, rep)
  }

  /** `s.split(pat)`: the pieces of `s` between the occurrences of `pat`, scanned the same way. */
  function Split(s: string, pat: string): (parts: seq<string>)
    requires pat != []
    ensures |parts| >= 1
    decreases |s|
  {
    if |s| < |pat| then [s]
    else if s[..|pat|] == pat then [""] + Split(s[|pat|..], pat)
    else
      var rest := Split(s[1..], pat);
      [[s[0]] + rest[0]] + rest[1..]
  }

  /** `sep.join(parts)`. */
  function Join(parts: seq<string>, sep: string): string
    decreases |parts|
  {
    if |parts| == 0 then ""
    else if |parts| == 1 then parts[0]
    else parts[0] + sep + Join(parts[1..], sep)
  }

  /** `pat` occurs in `s` starting at index `i`. */
  predicate MatchesAt(pat: string, s: string, i: nat) {
    i + |pat| <= |s| && s[i..i + |pat|] == pat
  }

  /** `pat` occurs somewhere in `s`. */
  predicate Occurs(pat: string, s: string) {
    exists i: nat | i <= |s| :: MatchesAt(pat, s, i)
  }

  lemma {:induction false} JoinConsChar(c: char, parts: seq<string>, sep: string)
    requires parts != []
    ensures Join([[c] + parts[0]] + parts[1..], sep) == [c] + Join(parts, sep)
  {
    var q := [[c] + parts[0]] + parts[1..];
    if |parts| > 1 {
      assert q[1..] == parts[1..];
    }
  }

  /** Replacing is splitting at the pattern and joining with the replacement, the
    * identity `s.replace(p, r) == r.join(s.split(p))`. */
  lemma {:induction false} ReplaceAllIsJoinOfSplit(s: string, pat: string, rep: string)
    requires pat != []
    ensures ReplaceAll(s, pat, rep) == Join(Split(s, pat), rep)
    decreases |s|
  {
    if |s| < |pat| {
    } else if s[..|pat|] == pat {
      var p := Split(s[|pat|..], pat);
      ReplaceAllIsJoinOfSplit(s[|pat|..], pat, rep);
      assert ([""] + p)[1..] == p;
    } else {
      ReplaceAllIsJoinOfSplit(s[1..], pat, rep);
      JoinConsChar(s[0], Split(s[1..], pat), rep);
    }
  }

  /** Replacing a pattern by itself changes nothing. */
  lemma {:induction false} ReplaceWithItself(s: string, pat: string)
    requires pat != []
    ensures ReplaceAll(s, pat, pat) == s
    decreases |s|
  {
    if |s| < |pat| {
    } else if s[..|pat|] == pat {
      ReplaceWithItself(s[|pat|..], pat);
      assert s == s[..|pat|] + s[|pat|..];
    } else {
      ReplaceWithItself(s[1..], pat);
      assert s == [s[0]] + s[1..];
    }
  }

  /** Joining the pieces of a split with the same pattern gives back the string. */
  lemma SplitJoinRoundTrip(s: string, pat: string)
    requires pat != []
    ensures Join(Split(s, pat), pat) == s
  {
    ReplaceAllIsJoinOfSplit(s, pat, pat);
    ReplaceWithItself(s, pat);
  }

  /** A string without the pattern passes through a replace unchanged. */
  lemma {:induction false} ReplaceAllWithoutOccurrence(s: string, pat: string, rep: string)
    requires pat != [] && !Occurs(pat, s)
    ensures ReplaceAll(s, pat, rep) == s
    decreases |s|
  {
    if |pat| <= |s| {
      assert !MatchesAt(pat, s, 0);
      assert s[0..0 + |pat|] == s[..|pat|];
      forall i: nat | i + |pat| <= |s[1..]|
        ensures !MatchesAt(pat, s[1..], i)
      {
        assert !MatchesAt(pat, s, i + 1);
        assert s[1..][i..i + |pat|] == s[i + 1..i + 1 + |pat|];
      }
      ReplaceAllWithoutOccurrence(s[1..], pat, rep);
    }
  }

  /** A template that is exactly the pattern becomes exactly the replacement. */
  lemma ReplaceWholeTemplate(pat: string, rep: string)
    requires pat != []
    ensures ReplaceAll(pat, pat, rep) == rep
  {
    assert pat[..|pat|] == pat;
    assert pat[|pat|..] == [];
  }

  /** Joining no parts gives the empty string; joining one part gives that part. */
  lemma JoinShort(sep: string, x: string)
    ensures Join([], sep) == "" && Join([x], sep) == x
  {
  }
}
