/** Case-insensitive substring search, as `string.Contains(value, comparison)`
    with an ignore-case comparison. Case folding covers the ASCII letters only. */
module Text {

  function LowerAscii(c: char): char
  {
    if 'A' <= c <= 'Z' then (c as int - 'A' as int + 'a' as int) as char else c
  }

  function Lower(s: string): string
  {
    seq(|s|, i requires 0 <= i < |s| => LowerAscii(s[i]))
  }

  /** `p` occurs in `s` at position `i`, ignoring case. */
  predicate MatchesAt(s: string, p: string, i: int)
  {
    0 <= i && i + |p| <= |s| && Lower(s[i..i + |p|]) == Lower(p)
  }

  predicate ContainsIgnoreCase(s: string, p: string)
    decreases |s|
  {
    MatchesAt(s, p, 0) || (|s| > 0 && ContainsIgnoreCase(s[1..], p))
  }

  /** The scan finds `p` exactly when `p` occurs somewhere in `s`. */
  lemma {:induction false} ContainsIgnoreCaseIff(s: string, p: string)
    decreases |s|
    ensures ContainsIgnoreCase(s, p) <==> exists i :: MatchesAt(s, p, i)
  {
    if |s| > 0 {
      ContainsIgnoreCaseIff(s[1..], p);
      forall i | MatchesAt(s[1..], p, i)
        ensures MatchesAt(s, p, i + 1)
      {
        assert s[1..][i..i + |p|] == s[i + 1..i + 1 + |p|];
      }
      forall i | MatchesAt(s, p, i) && i > 0
        ensures MatchesAt(s[1..], p, i - 1)
      {
        assert s[1..][i - 1..i - 1 + |p|] == s[i..i + |p|];
      }
    } else {
      forall i | MatchesAt(s, p, i) ensures i == 0 { }
    }
  }
}
