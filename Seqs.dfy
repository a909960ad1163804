/** Concatenation of a sequence of sequences, in order: the shape of a list that a
    loop builds by appending one group of elements after another. */
module Seqs {

  function Concat<T>(xss: seq<seq<T>>): seq<T>
  {
    if xss == [] then [] else Concat(xss[..|xss| - 1]) + xss[|xss| - 1]
  }

  /** Appending one more group appends its elements at the end. */
  lemma ConcatSnoc<T>(xss: seq<seq<T>>, i: nat)
    requires i < |xss|
    ensures Concat(xss[..i + 1]) == Concat(xss[..i]) + xss[i]
  {
    assert xss[..i + 1][..i] == xss[..i];
  }

  /** Element `j` of group `i` sits at the offset of all earlier groups plus `j`. */
  lemma {:induction false} ConcatIndex<T>(xss: seq<seq<T>>, i: nat, j: nat)
    requires i < |xss| && j < |xss[i]|
    ensures |Concat(xss[..i])| + j < |Concat(xss)|
    ensures Concat(xss)[|Concat(xss[..i])| + j] == xss[i][j]
  {
    var n := |xss|;
    assert xss[..n] == xss;
    if i == n - 1 {
    } else {
      var init := xss[..n - 1];
      assert init[..i] == xss[..i];
      ConcatIndex(init, i, j);
    }
  }

  /** Every element of the concatenation comes from some group. */
  lemma {:induction false} ConcatMember<T>(xss: seq<seq<T>>, k: nat)
    requires k < |Concat(xss)|
    ensures exists i, j :: 0 <= i < |xss| && 0 <= j < |xss[i]| && Concat(xss)[k] == xss[i][j]
  {
    var n := |xss|;
    var init := xss[..n - 1];
    if k < |Concat(init)| {
      ConcatMember(init, k);
      var i, j :| 0 <= i < |init| && 0 <= j < |init[i]| && Concat(init)[k] == init[i][j];
      assert Concat(xss)[k] == xss[i][j];
    } else {
      assert Concat(xss)[k] == xss[n - 1][k - |Concat(init)|];
    }
  }

  /** When every group has `n` elements, the concatenation has `n` per group. */
  lemma {:induction false} ConcatUniformLength<T>(xss: seq<seq<T>>, n: nat)
    requires forall i :: 0 <= i < |xss| ==> |xss[i]| == n
    ensures |Concat(xss)| == n * |xss|
  {
    if xss != [] {
      var init := xss[..|xss| - 1];
      ConcatUniformLength(init, n);
      assert n * |xss| == n * |init| + n;
    }
  }
}
