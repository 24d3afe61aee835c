/** The list operations the screens use: `filter`, and `filter` by index. */
module Seqs {

  /** `r` is `s` with some elements deleted; the rest keep their order. */
  ghost predicate IsSublist<T>(r: seq<T>, s: seq<T>)
    decreases |s|
  {
    if r == [] then true
    else if s == [] then false
    else (r[0] == s[0] && IsSublist(r[1..], s[1..])) || IsSublist(r, s[1..])
  }

  /** `Array.prototype.filter`. */
  function Filter<T>(s: seq<T>, keep: T -> bool): (r: seq<T>)
    ensures |r| <= |s|
    ensures forall i :: 0 <= i < |r| ==> r[i] in s && keep(r[i])
    ensures forall i :: 0 <= i < |s| && keep(s[i]) ==> s[i] in r
    ensures IsSublist(r, s)
  {
    if s == [] then []
    else if keep(s[0]) then [s[0]] + Filter(s[1..], keep)
    else Filter(s[1..], keep)
  }

  /** Every kept value appears as often as in the input, and a rejected value not at all. */
  lemma {:induction false} FilterMultiset<T>(s: seq<T>, keep: T -> bool)
    ensures forall x :: multiset(Filter(s, keep))[x] == if keep(x) then multiset(s)[x] else 0
  {
    if s != [] {
      FilterMultiset(s[1..], keep);
      assert s == [s[0]] + s[1..];
    }
  }

  /** A filter that rejects nothing returns the whole list. */
  lemma {:induction false} FilterKeepsAll<T>(s: seq<T>, keep: T -> bool)
    requires forall i :: 0 <= i < |s| ==> keep(s[i])
    ensures Filter(s, keep) == s
  {
    if s != [] {
      FilterKeepsAll(s[1..], keep);
    }
  }

  /** Filters whose conditions agree on every element of the list give the same result. */
  lemma {:induction false} FilterCongruent<T>(s: seq<T>, keep1: T -> bool, keep2: T -> bool)
    requires forall i :: 0 <= i < |s| ==> keep1(s[i]) == keep2(s[i])
    ensures Filter(s, keep1) == Filter(s, keep2)
  {
    if s != [] {
      FilterCongruent(s[1..], keep1, keep2);
    }
  }

  /** `prev.filter((_, i) => i !== index)`: drops position `index`, if there is one. */
  function RemoveIndex<T>(s: seq<T>, index: int): (r: seq<T>)
    ensures 0 <= index < |s| ==> |r| == |s| - 1
    ensures !(0 <= index < |s|) ==> r == s
    ensures 0 <= index < |s| ==> forall j :: 0 <= j < |r| ==> r[j] == s[if j < index then j else j + 1]
  {
    if 0 <= index < |s| then s[..index] + s[index + 1..] else s
  }
}
