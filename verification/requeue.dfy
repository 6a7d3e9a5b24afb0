/** How the reconciler combines wakeups. */
module Requeue {
  /** The earliest wakeup; candidates that are not positive have nothing pending. */
  method EarliestRequeue(candidates: seq<int>) returns (next: int)
    ensures next >= 0
    ensures forall i :: 0 <= i < |candidates| && candidates[i] > 0 ==> 0 < next <= candidates[i]
    ensures next > 0 ==> next in candidates
  {
    next := 0;
    for i := 0 to |candidates|
      invariant next >= 0
      invariant forall j :: 0 <= j < i && candidates[j] > 0 ==> 0 < next <= candidates[j]
      invariant next > 0 ==> next in candidates
    {
      if candidates[i] <= 0 {
        continue;
      }
      if next == 0 || candidates[i] < next {
        next := candidates[i];
      }
    }
  }
}
