/** Searches over sequences that several Go loops of the gateway perform. */
module Seqs {

  /** Index of the first element satisfying p, or |xs| when none does. */
  function FirstIndex<T>(xs: seq<T>, p: T -> bool): (k: nat)
    ensures k <= |xs|
    ensures forall j :: 0 <= j < k ==> !p(xs[j])
    ensures k < |xs| ==> p(xs[k])
  {
    if |xs| == 0 || p(xs[0]) then 0 else 1 + FirstIndex(xs[1..], p)
  }

  /** Index of the last element satisfying p, or -1 when none does. */
  function LastIndex<T>(xs: seq<T>, p: T -> bool): (k: int)
    ensures -1 <= k < |xs|
    ensures forall j :: k < j < |xs| ==> !p(xs[j])
    ensures k >= 0 ==> p(xs[k])
  {
    if |xs| == 0 then -1
    else if p(xs[|xs| - 1]) then |xs| - 1
    else LastIndex(xs[..|xs| - 1], p)
  }

  /** Linear search that stops at the first element satisfying p: whether any element does. */
  method FindAny<T>(xs: seq<T>, p: T -> bool) returns (found: bool)
    ensures found <==> exists i :: 0 <= i < |xs| && p(xs[i])
  {
    found := false;
    var i := 0;
    while i < |xs|
      invariant 0 <= i <= |xs|
      invariant !found
      invariant forall j :: 0 <= j < i ==> !p(xs[j])
    {
      if p(xs[i]) {
        found := true;
        break;
      }
      i := i + 1;
    }
  }
}
