/**
 * Embedding vectors and the two helpers both `utils.ts` files define over them:
 * `equalSizes` and `combineEmbeddings`, the element-wise sum used to merge the
 * embeddings of a document's chunks into one.
 */
module Vectors {
  import opened Base

  /** An embedding; `number` components are modelled as reals, without rounding. */
  type Vector = seq<real>

  /** Every vector has length `n`. */
  function AllOfLength(vs: seq<Vector>, n: nat): (r: bool)
    ensures r <==> forall i :: 0 <= i < |vs| ==> |vs[i]| == n
  {
    |vs| == 0 || (|vs[0]| == n && AllOfLength(vs[1..], n))
  }

  /** `equalSizes`: every length equals the first; true for an empty list. */
  function EqualSizes(vs: seq<Vector>): (r: bool)
    ensures |vs| == 0 ==> r
    ensures |vs| > 0 ==> (r <==> forall i :: 0 <= i < |vs| ==> |vs[i]| == |vs[0]|)
  {
    AllOfLength(vs, if |vs| == 0 then 0 else |vs[0]|)
  }

  /** Component `i` summed over the vectors, left to right from 0 as `reduce` does. */
  function ColumnSum(vs: seq<Vector>, i: nat): real
    requires forall k :: 0 <= k < |vs| ==> i < |vs[k]|
  {
    if |vs| == 0 then 0.0 else ColumnSum(vs[..|vs| - 1], i) + vs[|vs| - 1][i]
  }

  const UnequalSizesMessage := "Embeddings must have the same size"

  /** `combineEmbeddings`: the element-wise sum.  Unequal sizes are refused; an empty list
      passes the size check and then fails reading the first vector's length. */
  method CombineEmbeddings(vs: seq<Vector>) returns (r: Result<Vector>)
    ensures !EqualSizes(vs) ==> r == Err(Error(UnequalSizesMessage))
    ensures |vs| == 0 ==> r == Err(Error(TypeErrorMessage))
    ensures EqualSizes(vs) && |vs| > 0 ==>
      && r.Ok? && |r.value| == |vs[0]|
      && forall i :: 0 <= i < |vs[0]| ==> r.value[i] == ColumnSum(vs, i)
  {
    if !EqualSizes(vs) {
      return Err(Error(UnequalSizesMessage));
    }
    if |vs| == 0 {
      return Err(Error(TypeErrorMessage));
    }
    var combined: Vector := [];
    var i := 0;
    while i < |vs[0]|
      invariant 0 <= i <= |vs[0]|
      invariant |combined| == i
      invariant forall j :: 0 <= j < i ==> combined[j] == ColumnSum(vs, j)
    {
      combined := combined + [ColumnSum(vs, i)];
      i := i + 1;
    }
    r := Ok(combined);
  }

  /** Summing a list in two parts and adding the parts gives the sum of the whole. */
  lemma {:induction false} ColumnSumSplit(a: seq<Vector>, b: seq<Vector>, i: nat)
    requires forall k :: 0 <= k < |a| ==> i < |a[k]|
    requires forall k :: 0 <= k < |b| ==> i < |b[k]|
    ensures forall k :: 0 <= k < |a + b| ==> i < |(a + b)[k]|
    ensures ColumnSum(a + b, i) == ColumnSum(a, i) + ColumnSum(b, i)
    decreases |b|
  {
    assert forall k :: 0 <= k < |a + b| ==> i < |(a + b)[k]| by {
      forall k | 0 <= k < |a + b| ensures i < |(a + b)[k]| {
        if k >= |a| { assert (a + b)[k] == b[k - |a|]; }
      }
    }
    if |b| == 0 {
      assert a + b == a;
    } else {
      var b' := b[..|b| - 1];
      assert (a + b)[..|a + b| - 1] == a + b';
      ColumnSumSplit(a, b', i);
    }
  }

  /** The sum of one vector is that vector. */
  lemma ColumnSumSingle(v: Vector, i: nat)
    requires i < |v|
    ensures ColumnSum([v], i) == v[i]
  {
    assert [v][..0] == [];
  }
}
