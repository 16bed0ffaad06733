/** JavaScript's `Array.prototype.filter` on a sequence, and the laws every filter in the
    comment store relies on: membership, multiplicity, order, concatenation and the
    length test the DELETE handlers use to detect "nothing matched". */
module Filtering {

  /** The elements of `s` for which `keep` holds, in their original order. */
  function Filter<T(!new)>(s: seq<T>, keep: T -> bool): (r: seq<T>)
    ensures |r| <= |s|
    ensures forall x :: x in r <==> x in s && keep(x)
  {
    if s == [] then []
    else (if keep(s[0]) then [s[0]] else []) + Filter(s[1..], keep)
  }

  /** Filtering a concatenation filters each part and concatenates the results: the kept
      elements stay in the order they had. */
  lemma {:induction false} FilterAppend<T(!new)>(a: seq<T>, b: seq<T>, keep: T -> bool)
    ensures Filter(a + b, keep) == Filter(a, keep) + Filter(b, keep)
  {
    if a == [] {
      assert a + b == b;
    } else {
      assert (a + b)[0] == a[0];
      assert (a + b)[1..] == a[1..] + b;
      FilterAppend(a[1..], b, keep);
    }
  }

  /** Every copy of a kept value survives and every copy of a dropped value goes. */
  lemma {:induction false} FilterMultiplicity<T(!new)>(s: seq<T>, keep: T -> bool, x: T)
    ensures multiset(Filter(s, keep))[x] == if keep(x) then multiset(s)[x] else 0
  {
    if s != [] {
      FilterMultiplicity(s[1..], keep, x);
      assert s == [s[0]] + s[1..];
    }
  }

  /** The filter leaves the length unchanged exactly when no element is dropped, and then
      it returns its input. */
  lemma {:induction false} FilterLengthUnchanged<T(!new)>(s: seq<T>, keep: T -> bool)
    ensures |Filter(s, keep)| == |s| <==> forall i :: 0 <= i < |s| ==> keep(s[i])
    ensures (forall i :: 0 <= i < |s| ==> keep(s[i])) ==> Filter(s, keep) == s
  {
    if s != [] {
      FilterLengthUnchanged(s[1..], keep);
      if keep(s[0]) {
        assert forall i :: 1 <= i < |s| ==> s[1..][i - 1] == s[i];
      }
    }
  }

  /** Two complementary filters split a sequence: together they keep every element once. */
  lemma {:induction false} FilterPartition<T(!new)>(s: seq<T>, keep: T -> bool, drop: T -> bool)
    requires forall x :: drop(x) == !keep(x)
    ensures |Filter(s, keep)| + |Filter(s, drop)| == |s|
    ensures multiset(Filter(s, keep)) + multiset(Filter(s, drop)) == multiset(s)
  {
    if s != [] {
      FilterPartition(s[1..], keep, drop);
      assert s == [s[0]] + s[1..];
    }
  }

  /** Positions listed in strictly increasing order. */
  ghost predicate Increasing(pos: seq<nat>) {
    forall k, l :: 0 <= k < l < |pos| ==> pos[k] < pos[l]
  }

  /** `r` is `s` read at the positions `pos`, one element per position. */
  ghost predicate ReadAt<T>(s: seq<T>, pos: seq<nat>, r: seq<T>) {
    |pos| == |r| && forall k :: 0 <= k < |pos| ==> pos[k] < |s| && s[pos[k]] == r[k]
  }

  /** `pos` lists exactly the positions of `s` whose element `keep` accepts. */
  ghost predicate KeptPositions<T>(s: seq<T>, keep: T -> bool, pos: seq<nat>) {
    forall i :: 0 <= i < |s| ==> (keep(s[i]) <==> i in pos)
  }

  /** The result of a filter is `s` read at increasing positions, and those positions are
      exactly the ones whose element is kept: nothing is reordered and nothing is altered. */
  lemma {:induction false} FilterPositions<T(!new)>(s: seq<T>, keep: T -> bool) returns (pos: seq<nat>)
    ensures ReadAt(s, pos, Filter(s, keep))
    ensures Increasing(pos)
    ensures KeptPositions(s, keep, pos)
  {
    if s == [] {
      pos := [];
    } else {
      var rest := FilterPositions(s[1..], keep);
      var first: seq<nat> := if keep(s[0]) then [0] else [];
      pos := first + Shift(rest);
      ShiftReadAt(s, rest, Filter(s[1..], keep), keep(s[0]));
      ShiftIncreasing(rest, keep(s[0]));
      ShiftKept(s, keep, rest);
    }
  }

  /** Every position moved one place to the right. */
  function Shift(pos: seq<nat>): (r: seq<nat>)
    ensures |r| == |pos|
    ensures forall k :: 0 <= k < |r| ==> r[k] == pos[k] + 1
  {
    seq(|pos|, k requires 0 <= k < |pos| => pos[k] + 1)
  }

  lemma ShiftReadAt<T>(s: seq<T>, rest: seq<nat>, rt: seq<T>, taken: bool)
    requires s != [] && ReadAt(s[1..], rest, rt)
    ensures ReadAt(s, (if taken then [0] else []) + Shift(rest), (if taken then [s[0]] else []) + rt)
  {
  }

  lemma ShiftIncreasing(rest: seq<nat>, taken: bool)
    requires Increasing(rest)
    ensures Increasing((if taken then [0] else []) + Shift(rest))
  {
  }

  lemma ShiftKept<T>(s: seq<T>, keep: T -> bool, rest: seq<nat>)
    requires s != [] && KeptPositions(s[1..], keep, rest)
    ensures KeptPositions(s, keep, (if keep(s[0]) then [0] else []) + Shift(rest))
  {
  }
}
