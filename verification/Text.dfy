/** Colon-separated names. */
module Text {

  /** Where `c` first occurs in `s`, or the length of `s`. */
  function IndexOf(s: string, c: char): nat {
    if s == "" || s[0] == c then 0 else 1 + IndexOf(s[1..], c)
  }

  lemma {:induction false} IndexAfter(s: string, c: char, rest: string)
    requires c !in s
    ensures IndexOf(s + [c] + rest, c) == |s|
  {
    if s == "" {
      assert (s + [c] + rest)[0] == c;
    } else {
      IndexAfter(s[1..], c, rest);
      assert (s + [c] + rest)[0] == s[0] && s[0] in s;
      assert (s + [c] + rest)[1..] == s[1..] + [c] + rest;
    }
  }

  lemma {:induction false} IndexBound(s: string, c: char)
    ensures IndexOf(s, c) <= |s|
    ensures forall i :: 0 <= i < IndexOf(s, c) ==> s[i] != c
    ensures IndexOf(s, c) < |s| ==> s[IndexOf(s, c)] == c
  {
    if s != "" && s[0] != c {
      IndexBound(s[1..], c);
      forall i | 0 < i < IndexOf(s, c) ensures s[i] != c { assert s[i] == s[1..][i - 1]; }
    }
  }
}
