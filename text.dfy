/** The string operations the pipeline relies on, stated over `seq<char>`. */
module Text {
  import opened Common

  /** ASCII-only folding to lower case: a JavaScript regular expression with the `i` flag and no `u`
      flag never folds a character of code 128 or above onto an ASCII one, so this is exact for the
      ASCII patterns it is compared with. */
  function Lower(c: char): char
  {
    if 'A' <= c <= 'Z' then (c as int + 32) as char else c
  }

  function LowerStr(s: string): (r: string)
    ensures |r| == |s|
    ensures forall i :: 0 <= i < |s| ==> r[i] == Lower(s[i])
  {
    if s == [] then [] else [Lower(s[0])] + LowerStr(s[1..])
  }

  /** `\d` in a non-unicode regular expression. */
  predicate IsDigit(c: char)
  {
    '0' <= c <= '9'
  }

  lemma LowerKeepsDigits(c: char)
    ensures IsDigit(Lower(c)) <==> IsDigit(c)
  {
  }

  predicate StartsWith(s: string, p: string)
  {
    |p| <= |s| && s[..|p|] == p
  }

  predicate OccursAt(s: string, p: string, i: int)
  {
    0 <= i && i + |p| <= |s| && s[i..i + |p|] == p
  }

  /** `s.includes(p)`. */
  predicate Contains(s: string, p: string)
  {
    exists i :: 0 <= i <= |s| - |p| && OccursAt(s, p, i)
  }

  /** `/p/i.test(s)` for a pattern `p` written in lower-case ASCII letters and spaces: under ASCII
      folding a text character matches a pattern character exactly when its lower-case form is it. */
  predicate ContainsIgnoreCase(s: string, p: string)
  {
    Contains(LowerStr(s), p)
  }

  /** A lower-case letter occurs in the lowered text only where it or its capital occurs. */
  lemma LowerStrLacks(s: string, c: char, capital: char)
    requires 'A' <= capital <= 'Z' && Lower(capital) == c && c !in s && capital !in s
    ensures c !in LowerStr(s)
  {
    forall k | 0 <= k < |s|
      ensures LowerStr(s)[k] != c
    {
      assert s[k] in s;
    }
  }

  /** A pattern with a character that `s` lacks does not occur in `s`. */
  lemma NotContainsMissingChar(s: string, p: string, j: nat)
    requires j < |p| && p[j] !in s
    ensures !Contains(s, p)
  {
    forall i | 0 <= i <= |s| - |p|
      ensures !OccursAt(s, p, i)
    {
      assert s[i + j] in s;
      assert s[i..i + |p|][j] == s[i + j];
    }
  }

  /** `s.indexOf(p, from)`, with `None` for -1. */
  function IndexOfFrom(s: string, p: string, from: nat): (r: Option<nat>)
    ensures r.Some? ==> from <= r.value && OccursAt(s, p, r.value)
    ensures r.Some? ==> forall k :: from <= k < r.value ==> !OccursAt(s, p, k)
    ensures r.None? ==> forall k :: from <= k ==> !OccursAt(s, p, k)
    decreases |s| - from
  {
    if from + |p| > |s| then None
    else if s[from..from + |p|] == p then Some(from)
    else IndexOfFrom(s, p, from + 1)
  }

  /** The first position of `c` in `s`, as `s.indexOf(c)` with `None` for -1. */
  function FirstIndexOf(s: string, c: char): (r: Option<nat>)
    ensures r.Some? ==> r.value < |s| && s[r.value] == c
    ensures r.Some? ==> forall k :: 0 <= k < r.value ==> s[k] != c
    ensures r.None? ==> forall k :: 0 <= k < |s| ==> s[k] != c
  {
    if s == [] then None
    else if s[0] == c then Some(0)
    else match FirstIndexOf(s[1..], c)
      case None => None
      case Some(k) => Some(k + 1)
  }

  /** The last position of `c` in `s`, as `s.lastIndexOf(c)` with `None` for -1. */
  function LastIndexOf(s: string, c: char): (r: Option<nat>)
    ensures r.Some? ==> r.value < |s| && s[r.value] == c
    ensures r.Some? ==> forall k :: r.value < k < |s| ==> s[k] != c
    ensures r.None? ==> forall k :: 0 <= k < |s| ==> s[k] != c
  {
    if s == [] then None
    else if s[|s| - 1] == c then Some(|s| - 1)
    else LastIndexOf(s[..|s| - 1], c)
  }

  /** `s.replace(p, "")` with a string pattern: only the first occurrence goes. */
  function ReplaceFirst(s: string, p: string): (r: string)
  {
    match IndexOfFrom(s, p, 0)
    case None => s
    case Some(i) => s[..i] + s[i + |p|..]
  }

  lemma ReplaceFirstOfPrefix(s: string, p: string)
    requires StartsWith(s, p)
    ensures ReplaceFirst(s, p) == s[|p|..]
  {
    assert OccursAt(s, p, 0);
  }

  /** `s.split(c)[0]`: everything before the first `c`, or all of `s`. */
  function BeforeFirst(s: string, c: char): (r: string)
    ensures |r| <= |s| && r == s[..|r|]
    ensures c !in r
    ensures |r| < |s| ==> s[|r|] == c
  {
    if s == [] || s[0] == c then [] else [s[0]] + BeforeFirst(s[1..], c)
  }
}
