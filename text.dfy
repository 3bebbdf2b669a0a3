/** The string operations the scripts call: Python's argument-less `str.split()`,
    the case mappings `str.upper()` / `str.lower()` (on ASCII letters), and the
    venue test both predictors apply to their `home_away` argument. */
module Text {

  /** The characters Python's `str.split()` treats as separators. */
  predicate IsSpace(c: char)
  {
    c == ' ' || ('\t' <= c <= '\r') || ('\U{1C}' <= c <= '\U{1F}') || c == '\U{85}' || c == '\U{A0}'
    || c == '\U{1680}' || ('\U{2000}' <= c <= '\U{200A}') || c == '\U{2028}' || c == '\U{2029}'
    || c == '\U{202F}' || c == '\U{205F}' || c == '\U{3000}'
  }

  predicate NoSpace(s: string)
  {
    forall i :: 0 <= i < |s| ==> !IsSpace(s[i])
  }

  /** The length of the longest prefix of `s` without a separator. */
  function TokenEnd(s: string): (n: nat)
    ensures n <= |s| && NoSpace(s[..n])
    ensures n < |s| ==> IsSpace(s[n])
  {
    if s == [] || IsSpace(s[0]) then 0
    else
      var n := TokenEnd(s[1..]);
      assert s[..n + 1] == [s[0]] + s[1..][..n];
      n + 1
  }

  /** `s.split()`: the maximal runs of non-separator characters, in order. */
  function Split(s: string): (parts: seq<string>)
    ensures forall i :: 0 <= i < |parts| ==> parts[i] != [] && NoSpace(parts[i])
    decreases |s|
  {
    if s == [] then []
    else if IsSpace(s[0]) then Split(s[1..])
    else
      var n := TokenEnd(s);
      [s[..n]] + Split(s[n..])
  }

  lemma {:induction false} TokenEndOfNoSpace(s: string)
    requires NoSpace(s)
    ensures TokenEnd(s) == |s|
  {
    if s != [] {
      TokenEndOfNoSpace(s[1..]);
    }
  }

  /** A string without separators splits into itself alone (or into nothing when empty). */
  lemma {:induction false} SplitOfToken(s: string)
    requires NoSpace(s)
    ensures Split(s) == if s == [] then [] else [s]
  {
    if s != [] {
      TokenEndOfNoSpace(s);
      assert !IsSpace(s[0]);
      assert s[..|s|] == s && s[|s|..] == [];
      assert Split(s) == [s[..|s|]] + Split(s[|s|..]);
    }
  }

  /** A string without separators has fewer than two tokens. */
  lemma {:induction false} FewTokensOfNoSpace(s: string)
    ensures NoSpace(s) ==> |Split(s)| < 2
  {
    if NoSpace(s) {
      SplitOfToken(s);
    }
  }

  /** Two tokens joined by one blank split back into the two tokens. */
  lemma {:induction false} SplitTwoTokens(a: string, b: string)
    requires a != [] && NoSpace(a) && b != [] && NoSpace(b)
    ensures Split(a + " " + b) == [a, b]
  {
    var s := a + " " + b;
    assert !IsSpace(s[0]);
    assert s[..|a|] == a;
    assert NoSpace(s[..|a|]);
    TokenEndAtSpace(s, |a|);
    assert s[|a|..] == " " + b;
    assert (" " + b)[1..] == b;
    SplitOfToken(b);
  }

  lemma {:induction false} TokenEndAtSpace(s: string, n: nat)
    requires n < |s| && NoSpace(s[..n]) && IsSpace(s[n])
    ensures TokenEnd(s) == n
  {
    if n > 0 {
      assert s[1..][..n - 1] == s[..n][1..];
      TokenEndAtSpace(s[1..], n - 1);
    }
  }

  function UpperChar(c: char): char
  {
    if 'a' <= c <= 'z' then (c as int - 32) as char else c
  }

  function LowerChar(c: char): char
  {
    if 'A' <= c <= 'Z' then (c as int + 32) as char else c
  }

  /** `s.upper()`: the same length, every ASCII letter in upper case. */
  function Upper(s: string): (u: string)
    ensures |u| == |s|
    ensures forall i :: 0 <= i < |s| ==> u[i] == UpperChar(s[i])
  {
    seq(|s|, i requires 0 <= i < |s| => UpperChar(s[i]))
  }

  /** `s.lower()`: the same length, every ASCII letter in lower case. */
  function Lower(s: string): (l: string)
    ensures |l| == |s|
    ensures forall i :: 0 <= i < |s| ==> l[i] == LowerChar(s[i])
  {
    seq(|s|, i requires 0 <= i < |s| => LowerChar(s[i]))
  }

  /** A string is left unchanged by `upper()` exactly when it has no lower-case ASCII letter. */
  lemma {:induction false} UpperFixes(s: string)
    ensures Upper(s) == s <==> forall i :: 0 <= i < |s| ==> !('a' <= s[i] <= 'z')
  {
    if Upper(s) == s {
      forall i | 0 <= i < |s| ensures !('a' <= s[i] <= 'z') {
        assert Upper(s)[i] == s[i];
      }
    }
  }

  /** The strings whose `lower()` is `w` (a lower-case word) are exactly its case variants. */
  lemma {:induction false} LowerEqualsWord(s: string, w: string)
    requires forall i :: 0 <= i < |w| ==> 'a' <= w[i] <= 'z'
    ensures Lower(s) == w <==> |s| == |w| && forall i :: 0 <= i < |w| ==> s[i] == w[i] || s[i] == UpperChar(w[i])
  {
    if Lower(s) == w {
      forall i | 0 <= i < |w| ensures s[i] == w[i] || s[i] == UpperChar(w[i]) {
        assert LowerChar(s[i]) == w[i];
      }
    }
    if |s| == |w| && forall i :: 0 <= i < |w| ==> s[i] == w[i] || s[i] == UpperChar(w[i]) {
      forall i | 0 <= i < |w| ensures Lower(s)[i] == w[i] {
      }
    }
  }

  /** `1 if home_away.lower() == 'home' else 0`, the prediction-time home flag. */
  function QueryIsHome(venue: string): real
  {
    if Lower(venue) == "home" then 1.0 else 0.0
  }

  /** The flag is 1 exactly for "home" in any mix of letter cases, and 0 otherwise. */
  lemma {:induction false} QueryIsHomeSpec(venue: string)
    ensures QueryIsHome(venue) == 1.0 <==>
      |venue| == 4 && forall i :: 0 <= i < 4 ==> venue[i] == "home"[i] || venue[i] == "HOME"[i]
    ensures QueryIsHome(venue) == 0.0 || QueryIsHome(venue) == 1.0
  {
    LowerEqualsWord(venue, "home");
    assert forall i :: 0 <= i < 4 ==> UpperChar("home"[i]) == "HOME"[i];
  }
}
