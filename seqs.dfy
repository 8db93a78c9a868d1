/**
 * Sequence facts stated generically, so that using them on strings and on
 * sequences of events costs no reasoning about the elements.
 */
module Seqs {

  lemma SplitLast<T>(s: seq<T>)
    requires |s| >= 1
    ensures s == s[..|s| - 1] + [s[|s| - 1]]
  {
  }

  lemma AppendLast<T>(s: seq<T>, x: T)
    ensures |s + [x]| == |s| + 1
    ensures (s + [x])[..|s|] == s && (s + [x])[|s|] == x
  {
  }

  lemma AppendAssoc<T>(a: seq<T>, b: seq<T>, c: seq<T>)
    ensures (a + b) + c == a + (b + c)
  {
  }

  lemma AppendEmpty<T>(a: seq<T>)
    ensures a + [] == a && [] + a == a
  {
  }
}
