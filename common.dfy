/** Value types shared by every stage of the pipeline. */
module Common {

  /** An optional value; `None` stands for JavaScript's `null` or `undefined`. */
  datatype Option<+T> = None | Some(value: T)

  /** JavaScript's `s.slice(0, n)`: the first `n` elements, or all of `s` when it is shorter. */
  function Take<T>(s: seq<T>, n: nat): (r: seq<T>)
    ensures |r| == if |s| <= n then |s| else n
    ensures r == s[..|r|]
  {
    if |s| <= n then s else s[..n]
  }

  lemma TakeOfPrefix<T>(s: seq<T>, t: seq<T>, n: nat)
    requires |s| >= n
    ensures Take(s + t, n) == Take(s, n)
  {
    assert (s + t)[..n] == s[..n];
  }
}
