/** Splitting a text into its words. */
module Tokens {

  /** Where the first word of `s` ends. */
  function WordEnd(s: string): (k: nat)
    ensures k <= |s| && ' ' !in s[..k] && (k < |s| ==> s[k] == ' ')
  {
    if s == "" || s[0] == ' ' then 0 else 1 + WordEnd(s[1..])
  }

  /** A word is never cut in two when `s` and `t` are put together. */
  ghost predicate Apart(s: string, t: string) {
    s == "" || t == "" || s[|s| - 1] == ' ' || t[0] == ' '
  }

  lemma {:induction false} WordEndAppend(s: string, t: string)
    requires s != "" && t != "" && (s[|s| - 1] == ' ' || t[0] == ' ')
    ensures WordEnd(s + t) == WordEnd(s)
    decreases |s|
  {
    assert (s + t)[1..] == s[1..] + t;
    if s[0] != ' ' {
      if |s| == 1 {
        assert WordEnd(t) == 0;
        assert s[1..] + t == t;
      } else {
        WordEndAppend(s[1..], t);
      }
    }
  }

  lemma {:induction false} WordEndOfWord(w: string)
    requires ' ' !in w
    ensures WordEnd(w) == |w|
  {
    if w != "" {
      WordEndOfWord(w[1..]);
    }
  }

  // ----- JavaScript's trim, for spaces -----

  function TrimStart(s: string): string {
    if s != "" && s[0] == ' ' then TrimStart(s[1..]) else s
  }

  function TrimEnd(s: string): string {
    if s != "" && s[|s| - 1] == ' ' then TrimEnd(s[..|s| - 1]) else s
  }

  function Trim(s: string): string {
    TrimEnd(TrimStart(s))
  }
}
