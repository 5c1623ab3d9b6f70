/**
 * Boolean-mask indexing of a table, `table[mask]` in numpy and astropy: the
 * rows whose mask entry is true, in their original order.
 */
module Tables {

  /** The positions where the mask is true, in increasing order. */
  function Indices(mask: seq<bool>): (r: seq<nat>)
    ensures |r| <= |mask|
    ensures forall k :: 0 <= k < |r| ==> r[k] < |mask| && mask[r[k]]
    ensures forall k, l :: 0 <= k < l < |r| ==> r[k] < r[l]
    ensures forall i :: 0 <= i < |mask| && mask[i] ==> i in r
  {
    if |mask| == 0 then []
    else
      var n := |mask| - 1;
      Indices(mask[..n]) + (if mask[n] then [n] else [])
  }

  /** `xs[mask]`: the elements whose mask entry is true. */
  function Filter<T>(xs: seq<T>, mask: seq<bool>): (r: seq<T>)
    requires |mask| == |xs|
    ensures |r| <= |xs|
  {
    if |xs| == 0 then []
    else
      var n := |xs| - 1;
      Filter(xs[..n], mask[..n]) + (if mask[n] then [xs[n]] else [])
  }

  /**
   * The k-th kept element is the element at the k-th true position: the
   * filter keeps exactly the masked elements and does not reorder them.
   */
  lemma {:induction false} FilterAt<T>(xs: seq<T>, mask: seq<bool>)
    requires |mask| == |xs|
    ensures |Filter(xs, mask)| == |Indices(mask)|
    ensures forall k :: 0 <= k < |Indices(mask)| ==> Filter(xs, mask)[k] == xs[Indices(mask)[k]]
  {
    if |xs| > 0 {
      var n := |xs| - 1;
      FilterAt(xs[..n], mask[..n]);
      forall k | 0 <= k < |Indices(mask[..n])|
        ensures Filter(xs[..n], mask[..n])[k] == xs[Indices(mask[..n])[k]]
      {
      }
    }
  }
}
