/** Small facts and functions on sequences that several modules share. */
module Sequences {

  lemma AppendAssoc<T>(a: seq<T>, b: seq<T>, c: seq<T>)
    ensures (a + b) + c == a + (b + c)
  {
  }

  /** Where `x` stands last in `s`. */
  function IndexOf<T(==)>(s: seq<T>, x: T): (j: nat)
    requires x in s
    ensures j < |s| && s[j] == x
  {
    if s[|s| - 1] == x then |s| - 1
    else assert s == s[..|s| - 1] + [s[|s| - 1]]; IndexOf(s[..|s| - 1], x)
  }

  /** Every element paired with `i`. */
  function Tagged<T>(i: nat, s: seq<T>): (r: seq<(nat, T)>)
    ensures |r| == |s| && forall j | 0 <= j < |r| :: r[j] == (i, s[j])
  {
    seq(|s|, j requires 0 <= j < |s| => (i, s[j]))
  }
}
