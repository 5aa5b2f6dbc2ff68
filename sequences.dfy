/** Facts about sequences shared by the filtering loops of the exporter. */
module Sequences {

  import opened Wrappers

  predicate NoDuplicates<T(==)>(s: seq<T>)
  {
    forall i, j :: 0 <= i < j < |s| ==> s[i] != s[j]
  }

  predicate StrictlyIncreasing(s: seq<nat>)
  {
    forall k, l :: 0 <= k < l < |s| ==> s[k] < s[l]
  }

  /**
   * The positions at which `mask` holds, in increasing order. A filtering loop that
   * keeps element `i` exactly when `mask[i]` holds produces the elements at these positions.
   */
  function KeptIndices(mask: seq<bool>): (r: seq<nat>)
    ensures |r| <= |mask|
    ensures forall k :: 0 <= k < |r| ==> r[k] < |mask| && mask[r[k]]
  {
    if |mask| == 0 then []
    else KeptIndices(mask[..|mask| - 1]) + (if mask[|mask| - 1] then [|mask| - 1] else [])
  }

  /** The kept positions are increasing and are exactly the positions where the mask holds. */
  lemma {:induction false} KeptIndicesExact(mask: seq<bool>)
    ensures StrictlyIncreasing(KeptIndices(mask))
    ensures forall i :: 0 <= i < |mask| ==> (i in KeptIndices(mask) <==> mask[i])
  {
    if |mask| > 0 {
      var n := |mask| - 1;
      var front := mask[..n];
      KeptIndicesExact(front);
      var keptFront := KeptIndices(front);
      var last: seq<nat> := if mask[n] then [n] else [];
      var kept := keptFront + last;
      assert KeptIndices(mask) == kept;
      forall k, l | 0 <= k < l < |kept|
        ensures kept[k] < kept[l]
      {
        if l >= |keptFront| {
          assert kept[l] == n && kept[k] == keptFront[k];
        }
      }
      forall i | 0 <= i < |mask|
        ensures i in kept <==> mask[i]
      {
        if i < n {
          assert front[i] == mask[i];
          assert i in kept <==> i in keptFront;
        } else {
          assert i !in keptFront;
        }
      }
    }
  }


  /**
   * The loop "for each element in order, append `f(x)` when it is present": keeps the
   * elements for which `f` yields a value, transformed by `f`.
   */
  function FilterMap<T, U>(s: seq<T>, f: T -> Option<U>): (r: seq<U>)
    ensures |r| <= |s|
  {
    if |s| == 0 then []
    else FilterMap(s[..|s| - 1], f) + match f(s[|s| - 1]) { case Some(u) => [u] case None => [] }
  }

  /** Which elements `FilterMap` keeps. */
  function KeptMask<T, U>(s: seq<T>, f: T -> Option<U>): (m: seq<bool>)
    ensures |m| == |s|
  {
    seq(|s|, i requires 0 <= i < |s| => f(s[i]).Some?)
  }

  /**
   * `FilterMap` keeps exactly the elements for which `f` yields a value, each once and in
   * their original order: result `k` is the value of the `k`-th kept element.
   */
  lemma {:induction false} FilterMapAt<T, U>(s: seq<T>, f: T -> Option<U>)
    ensures var r, kept := FilterMap(s, f), KeptIndices(KeptMask(s, f));
      && |r| == |kept|
      && StrictlyIncreasing(kept)
      && (forall i :: 0 <= i < |s| ==> (i in kept <==> f(s[i]).Some?))
      && (forall k :: 0 <= k < |r| ==> kept[k] < |s| && f(s[kept[k]]) == Some(r[k]))
  {
    var mask := KeptMask(s, f);
    KeptIndicesExact(mask);
    if |s| > 0 {
      var n := |s| - 1;
      var front := s[..n];
      FilterMapAt(front, f);
      assert KeptMask(front, f) == mask[..n];
      var keptFront, rFront := KeptIndices(mask[..n]), FilterMap(front, f);
      var r, kept := FilterMap(s, f), KeptIndices(mask);
      assert kept == keptFront + (if mask[n] then [n] else []);
      forall k | 0 <= k < |r|
        ensures kept[k] < |s| && f(s[kept[k]]) == Some(r[k])
      {
        if k < |rFront| {
          assert front[keptFront[k]] == s[keptFront[k]];
        } else {
          assert kept[k] == n;
        }
      }
    }
  }

  /** `FilterMap` yields nothing exactly when `f` yields nothing for every element. */
  lemma {:induction false} FilterMapEmpty<T, U>(s: seq<T>, f: T -> Option<U>)
    ensures FilterMap(s, f) == [] <==> forall i :: 0 <= i < |s| ==> f(s[i]).None?
  {
    if |s| > 0 {
      var n := |s| - 1;
      FilterMapEmpty(s[..n], f);
      assert forall i :: 0 <= i < n ==> s[..n][i] == s[i];
    }
  }

}
