/** Value types and sequence helpers shared by the backend model. */
module Common {

  /** Python's `None` or a present value. */
  datatype Option<T> = None | Some(value: T)

  function Min(a: int, b: int): int { if a <= b then a else b }

  /** Python's slice `s[:n]`: the first `n` elements, or all of `s` when it is shorter. */
  function Take<T>(s: seq<T>, n: nat): (r: seq<T>)
    ensures |r| == Min(|s|, n)
    ensures forall k :: 0 <= k < |r| ==> r[k] == s[k]
  {
    if |s| <= n then s else s[..n]
  }

  /** Everything `Take` keeps is in the sequence, and only an empty sequence or `n == 0` gives nothing. */
  lemma TakeMembers<T>(s: seq<T>, n: nat)
    ensures forall x :: x in Take(s, n) ==> x in s
    ensures Take(s, n) == [] <==> s == [] || n == 0
  {
    if |s| > n {
      assert forall x :: x in s[..n] ==> x in s;
    }
  }

  /** `sub` is obtained from `s` by deleting elements, keeping the order of the rest. */
  predicate IsSubsequence<T(==)>(sub: seq<T>, s: seq<T>)
    decreases |s|
  {
    if sub == [] then true
    else if s == [] then false
    else if sub[|sub| - 1] == s[|s| - 1] then IsSubsequence(sub[..|sub| - 1], s[..|s| - 1])
    else IsSubsequence(sub, s[..|s| - 1])
  }

  /** Dropping the last kept element leaves a subsequence. */
  lemma {:induction false} SubsequenceDropLast<T>(sub: seq<T>, s: seq<T>)
    requires sub != [] && IsSubsequence(sub, s)
    ensures IsSubsequence(sub[..|sub| - 1], s)
    decreases |s|, 1
  {
    var sub' := sub[..|sub| - 1];
    if sub[|sub| - 1] == s[|s| - 1] {
      SubsequenceSkipLast(sub', s);
    } else {
      SubsequenceDropLast(sub, s[..|s| - 1]);
      SubsequenceSkipLast(sub', s);
    }
  }

  /** A subsequence of `s` without its last element is a subsequence of `s`. */
  lemma {:induction false} SubsequenceSkipLast<T>(sub: seq<T>, s: seq<T>)
    requires s != [] && IsSubsequence(sub, s[..|s| - 1])
    ensures IsSubsequence(sub, s)
    decreases |s|, 0
  {
    if sub != [] && sub[|sub| - 1] == s[|s| - 1] {
      SubsequenceDropLast(sub, s[..|s| - 1]);
    }
  }

  /** Appending an element to `s` keeps every subsequence of `s` a subsequence. */
  lemma SubsequenceExtend<T>(sub: seq<T>, s: seq<T>, x: T)
    requires IsSubsequence(sub, s)
    ensures IsSubsequence(sub, s + [x])
  {
    assert (s + [x])[..|s|] == s;
    SubsequenceSkipLast(sub, s + [x]);
  }

  /** Appending the same element to both keeps the subsequence relation. */
  lemma SubsequenceAppendBoth<T>(sub: seq<T>, s: seq<T>, x: T)
    requires IsSubsequence(sub, s)
    ensures IsSubsequence(sub + [x], s + [x])
  {
  }

  /** A subsequence only holds elements of the sequence. */
  lemma {:induction false} SubsequenceMembers<T>(sub: seq<T>, s: seq<T>)
    requires IsSubsequence(sub, s)
    ensures forall x :: x in sub ==> x in s
    decreases |s|
  {
    if sub != [] && s != [] {
      var s' := s[..|s| - 1];
      assert s == s' + [s[|s| - 1]];
      if sub[|sub| - 1] == s[|s| - 1] {
        var sub' := sub[..|sub| - 1];
        SubsequenceMembers(sub', s');
        assert sub == sub' + [sub[|sub| - 1]];
      } else {
        SubsequenceMembers(sub, s');
      }
    }
  }
}
