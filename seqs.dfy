/** Facts about sequences shared by the modules. */
module Seqs {

  /** No element occurs twice: the keys of a Python dict, in their order. */
  ghost predicate Distinct<T>(s: seq<T>)
  {
    forall i, j :: 0 <= i < j < |s| ==> s[i] != s[j]
  }

  /** `sub` keeps some of the elements of `s`, in the order `s` has them. */
  ghost predicate Subsequence<T>(sub: seq<T>, s: seq<T>)
    decreases |s|
  {
    if sub == [] then true
    else if s == [] then false
    else if sub[0] == s[0] then Subsequence(sub[1..], s[1..])
    else Subsequence(sub, s[1..])
  }

  lemma {:induction false} SubsequenceOfTail<T>(sub: seq<T>, s: seq<T>, x: T)
    requires Subsequence(sub, s)
    ensures Subsequence(sub, [x] + s)
    decreases |s|, 1
  {
    if sub == [] {
    } else if x == sub[0] {
      assert ([x] + s)[1..] == s;
      SubsequenceDropFront(sub, s);
    } else {
      assert ([x] + s)[1..] == s;
    }
  }

  lemma {:induction false} SubsequenceDropFront<T>(sub: seq<T>, s: seq<T>)
    requires sub != [] && Subsequence(sub, s)
    ensures Subsequence(sub[1..], s)
    decreases |s|, 0
  {
    if sub[1..] == [] {
    } else if sub[0] == s[0] {
      SubsequenceOfTail(sub[1..], s[1..], s[0]);
      assert [s[0]] + s[1..] == s;
    } else {
      SubsequenceDropFront(sub, s[1..]);
      SubsequenceOfTail(sub[1..], s[1..], s[0]);
      assert [s[0]] + s[1..] == s;
    }
  }
}
