/**
  Order-preserving selection from a sequence by position, and reversal.
  A filter that keeps some elements of a list in input order is described
  by the increasing positions it keeps (`IndicesWhere`) and the elements at
  those positions (`Select`).
 */
module Selection {

  /** The positions below `n` that satisfy `keep`, in increasing order. */
  function IndicesWhere(n: nat, keep: nat -> bool): (r: seq<nat>)
    ensures forall k :: 0 <= k < |r| ==> r[k] < n && keep(r[k])
    ensures forall k, l :: 0 <= k < l < |r| ==> r[k] < r[l]
  {
    if n == 0 then []
    else IndicesWhere(n - 1, keep) + (if keep(n - 1) then [n - 1] else [])
  }

  /** No position that satisfies `keep` is missed. */
  lemma {:induction false} IndicesWhereComplete(n: nat, keep: nat -> bool)
    ensures forall i :: 0 <= i < n && keep(i) ==> i in IndicesWhere(n, keep)
  {
    if n > 0 {
      IndicesWhereComplete(n - 1, keep);
    }
  }

  /** Selecting by positions depends only on `keep` below `n`. */
  lemma {:induction false} IndicesWhereCongruent(n: nat, keep: nat -> bool, keep': nat -> bool)
    requires forall i :: 0 <= i < n ==> keep(i) == keep'(i)
    ensures IndicesWhere(n, keep) == IndicesWhere(n, keep')
  {
    if n > 0 {
      IndicesWhereCongruent(n - 1, keep, keep');
    }
  }

  /** The elements of `s` at positions `idx`, in the order of `idx`. */
  function Select<T>(s: seq<T>, idx: seq<nat>): seq<T>
    requires forall k :: 0 <= k < |idx| ==> idx[k] < |s|
  {
    seq(|idx|, k requires 0 <= k < |idx| => s[idx[k]])
  }

  /** Selecting one more position appends the element there. */
  lemma SelectSnoc<T>(s: seq<T>, idx: seq<nat>, j: nat)
    requires forall k :: 0 <= k < |idx| ==> idx[k] < |s|
    requires j < |s|
    ensures Select(s, idx + [j]) == Select(s, idx) + [s[j]]
  {
  }

  /** Extending a sequence by one element, and possibly selecting it, extends the selection by that element. */
  lemma SelectExtend<T>(s: seq<T>, idx: seq<nat>, x: T, pick: bool)
    requires forall k :: 0 <= k < |idx| ==> idx[k] < |s|
    ensures Select(s + [x], idx + (if pick then [|s|] else [])) == Select(s, idx) + (if pick then [x] else [])
  {
  }

  /** `list.reverse()`: the last element first. */
  function Reversed<T>(s: seq<T>): seq<T>
  {
    seq(|s|, k requires 0 <= k < |s| => s[|s| - 1 - k])
  }
}
