/** Order-preserving selection: the vocabulary in which the product filters of
    both Open/Closed examples are specified. */
module Subsequences {

  /** `s` can be obtained from `t` by deleting elements, the rest kept in order. */
  ghost predicate IsSubsequence<T>(s: seq<T>, t: seq<T>)
    decreases |t|
  {
    if t == [] then s == []
    else IsSubsequence(s, t[1..]) || (s != [] && s[0] == t[0] && IsSubsequence(s[1..], t[1..]))
  }
}
