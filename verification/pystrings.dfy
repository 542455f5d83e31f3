/**
 The pieces of Python string semantics the tool relies on: `str.lower()` and
 `str.upper()` restricted to ASCII letters, the clamping slices `s[-k:]` and
 `s[:-k]`, and `s.split('/')[-1]`.
 */
module PyStrings {

  predicate IsUpperChar(c: char) { 'A' <= c <= 'Z' }

  predicate IsLowerChar(c: char) { 'a' <= c <= 'z' }

  /** `str.lower()` on one character, ASCII letters only. */
  function LowerChar(c: char): (r: char)
    ensures !IsUpperChar(r)
    ensures IsUpperChar(c) ==> IsLowerChar(r) && r as int == c as int + 32
    ensures !IsUpperChar(c) ==> r == c
  {
    if IsUpperChar(c) then (c as int + 32) as char else c
  }

  /** `str.upper()` on one character, ASCII letters only. */
  function UpperChar(c: char): (r: char)
    ensures !IsLowerChar(r)
    ensures IsLowerChar(c) ==> IsUpperChar(r) && r as int == c as int - 32
    ensures !IsLowerChar(c) ==> r == c
  {
    if IsLowerChar(c) then (c as int - 32) as char else c
  }

  /** Folding a character to lower case forgets how it was cased before. */
  lemma LowerCharForgetsCase(c: char)
    ensures LowerChar(UpperChar(c)) == LowerChar(c)
    ensures LowerChar(LowerChar(c)) == LowerChar(c)
  {
  }

  /** A character whose lower-case form is not a letter was not a letter. */
  lemma LowerCharOfNonLetter(c: char, d: char)
    requires !IsLowerChar(d) && !IsUpperChar(d)
    ensures LowerChar(c) == d <==> c == d
  {
  }

  /** `s.lower()`: each character folded, nothing else changed. */
  function Lower(s: string): (r: string)
    ensures |r| == |s|
    ensures forall i :: 0 <= i < |s| ==> r[i] == LowerChar(s[i])
  {
    if s == [] then [] else [LowerChar(s[0])] + Lower(s[1..])
  }

  /** `s.upper()`: each character folded, nothing else changed. */
  function Upper(s: string): (r: string)
    ensures |r| == |s|
    ensures forall i :: 0 <= i < |s| ==> r[i] == UpperChar(s[i])
  {
    if s == [] then [] else [UpperChar(s[0])] + Upper(s[1..])
  }

  /** Two strings are the same up to ASCII case. */
  predicate SameIgnoringCase(a: string, b: string) {
    Lower(a) == Lower(b)
  }

  /** Upper- and lower-casing a string keep it the same up to case. */
  lemma CaseVariants(s: string)
    ensures SameIgnoringCase(Upper(s), s)
    ensures SameIgnoringCase(Lower(s), s)
  {
    forall i | 0 <= i < |s|
      ensures Lower(Upper(s))[i] == Lower(s)[i] && Lower(Lower(s))[i] == Lower(s)[i]
    {
      LowerCharForgetsCase(s[i]);
    }
  }

  /**
   Python `s[-k:]`: the last `k` characters, or all of `s` when it is
   shorter. Only for `k >= 1`: Python's `s[-0:]` is all of `s`.
   */
  function Tail(s: string, k: nat): (r: string)
    requires k >= 1
    ensures |r| == if |s| < k then |s| else k
    ensures r == s[|s| - |r|..]
  {
    if |s| <= k then s else s[|s| - k..]
  }

  /**
   Python `s[:-k]`: `s` without its last `k` characters, or `""` when it is
   shorter. Only for `k >= 1`: Python's `s[:-0]` is `""`.
   */
  function DropLast(s: string, k: nat): (r: string)
    requires k >= 1
    ensures |r| == if |s| < k then 0 else |s| - k
    ensures r == s[..|r|]
  {
    if |s| <= k then [] else s[..|s| - k]
  }

  /** `s` ends with `t`. */
  predicate EndsWith(s: string, t: string) {
    |t| <= |s| && s[|s| - |t|..] == t
  }

  /** Where the last `/`-segment of `s` starts: just after its last `/`, or 0. */
  function SegmentStart(s: string): (k: nat)
    ensures k <= |s|
    ensures forall i :: k <= i < |s| ==> s[i] != '/'
    ensures k > 0 ==> s[k - 1] == '/'
  {
    if |s| == 0 then 0
    else if s[|s| - 1] == '/' then |s|
    else SegmentStart(s[..|s| - 1])
  }

  /**
   `s.split('/')[-1]`: the text after the last `/`, or all of `s` when it has none.
   The contract pins the result down: the longest suffix of `s` free of `/`.
   */
  function LastSegment(s: string): (r: string)
    ensures forall i :: 0 <= i < |r| ==> r[i] != '/'
    ensures EndsWith(s, r)
    ensures |r| < |s| ==> s[|s| - |r| - 1] == '/'
  {
    s[SegmentStart(s)..]
  }

  /** A path without any `/` is its own last segment. */
  lemma LastSegmentOfPlainName(s: string)
    requires forall i :: 0 <= i < |s| ==> s[i] != '/'
    ensures LastSegment(s) == s
  {
    if SegmentStart(s) > 0 {
      assert s[SegmentStart(s) - 1] == '/';
    }
  }
}
