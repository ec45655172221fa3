/** Facts about the last element of a sequence, stated once so that callers need not
    re-establish sequence equalities in large proof contexts. */
module Sequences {
  import opened Wrappers

  lemma SnocSplit<T>(s: seq<T>)
    requires |s| > 0
    ensures s == s[..|s| - 1] + [s[|s| - 1]]
  {
  }

  lemma SliceToEnd<T>(s: seq<T>, i: nat)
    requires i <= |s|
    ensures s[i..|s|] == s[i..]
  {
  }

  lemma MultisetSnoc<T>(s: seq<T>)
    requires |s| > 0
    ensures multiset(s) == multiset(s[..|s| - 1]) + multiset{s[|s| - 1]}
  {
    SnocSplit(s);
  }

  lemma InSnoc<T>(s: seq<T>, v: T)
    requires |s| > 0
    ensures v in s <==> v in s[..|s| - 1] || v == s[|s| - 1]
  {
    SnocSplit(s);
  }

  /** Removing the element at the join of `p` and `rest` drops the head of `rest`. */
  lemma RemoveAtJoin<T>(p: seq<T>, rest: seq<T>)
    requires |rest| > 0
    ensures (p + rest)[..|p|] + (p + rest)[|p| + 1..] == p + rest[1..]
  {
    assert (p + rest)[..|p|] == p;
    assert (p + rest)[|p| + 1..] == rest[1..];
  }

  /** The head of `rest` can be moved to the end of `p`. */
  lemma MoveAcrossJoin<T>(p: seq<T>, rest: seq<T>)
    requires |rest| > 0
    ensures p + rest == (p + [rest[0]]) + rest[1..]
  {
    assert rest == [rest[0]] + rest[1..];
  }

  /** The first element of `s` that satisfies `p`, as `Array.prototype.find` returns it. */
  function FirstWhere<T>(s: seq<T>, p: T -> bool): (r: Option<T>)
    ensures r.None? <==> forall i :: 0 <= i < |s| ==> !p(s[i])
    ensures r.Some? ==> exists i :: 0 <= i < |s| && s[i] == r.value && p(r.value) &&
                                   forall j :: 0 <= j < i ==> !p(s[j])
  {
    if |s| == 0 then None
    else if p(s[0]) then Some(s[0])
    else
      var r := FirstWhere(s[1..], p);
      assert forall i :: 1 <= i < |s| ==> s[i] == s[1..][i - 1];
      r
  }

  /** Searching a concatenation looks at the second part only when the first has no match. */
  lemma {:induction false} FirstWhereAppend<T>(a: seq<T>, b: seq<T>, p: T -> bool)
    ensures FirstWhere(a + b, p) == if FirstWhere(a, p).Some? then FirstWhere(a, p) else FirstWhere(b, p)
  {
    if |a| > 0 {
      assert (a + b)[1..] == a[1..] + b;
      FirstWhereAppend(a[1..], b, p);
    } else {
      assert a + b == b;
    }
  }
}
