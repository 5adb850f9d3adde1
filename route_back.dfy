/** `useRouteBack` (`app/lib/hooks.ts`): a ref that records the last pending
    flag and a router that navigates back when a pending transition ends. */
module RouteBack {

  /** Back navigations a run of effects makes, starting from the recorded
      flag `ref`, when every step has `requestServerRedirect` false: one per
      step where the flag falls from true to false. */
  function FallingEdges(ref: bool, steps: seq<bool>): (n: nat)
    ensures n <= |steps|
    decreases steps
  {
    if steps == [] then 0
    else (if ref && !steps[0] then 1 else 0) + FallingEdges(steps[0], steps[1..])
  }

  /** The rising edges over the same run. */
  function RisingEdges(ref: bool, steps: seq<bool>): (n: nat)
    ensures n <= |steps|
    decreases steps
  {
    if steps == [] then 0
    else (if !ref && steps[0] then 1 else 0) + RisingEdges(steps[0], steps[1..])
  }

  function Last(ref: bool, steps: seq<bool>): bool
  {
    if steps == [] then ref else steps[|steps| - 1]
  }

  /** Falling and rising edges alternate: their difference is fixed by the
      first and last values, so every back navigation answers one pending
      period that began during the run or before it. */
  lemma {:induction false} EdgesAlternate(ref: bool, steps: seq<bool>)
    ensures FallingEdges(ref, steps) as int - RisingEdges(ref, steps) as int ==
            (if ref then 1 else 0) - (if Last(ref, steps) then 1 else 0)
    decreases steps
  {
    if steps != [] {
      EdgesAlternate(steps[0], steps[1..]);
      assert Last(steps[0], steps[1..]) == Last(ref, steps);
    }
  }

  class RouteBackHook {
    /** `pendingRef.current`. */
    var pendingRef: bool
    /** Calls made to `route.back()`. */
    var backCalls: nat

    /** `useRef(isPending)` on the first render. */
    constructor (isPending: bool)
      ensures pendingRef == isPending && backCalls == 0
    {
      pendingRef := isPending;
      backCalls := 0;
    }

    /** One run of the effect. */
    method Effect(isPending: bool, requestServerRedirect: bool)
      modifies this
      ensures requestServerRedirect ==> pendingRef == old(pendingRef) && backCalls == old(backCalls)
      ensures !requestServerRedirect ==> pendingRef == isPending
      ensures !requestServerRedirect ==>
        backCalls == old(backCalls) + FallingEdges(old(pendingRef), [isPending])
    {
      if requestServerRedirect {
        return;
      }
      if !pendingRef && isPending {
        pendingRef := isPending;
        return;
      }
      if pendingRef && !isPending {
        pendingRef := isPending;
        backCalls := backCalls + 1;
      }
    }

    /** Effects for a sequence of pending flags with no server redirect. */
    method Run(steps: seq<bool>)
      modifies this
      ensures backCalls == old(backCalls) + FallingEdges(old(pendingRef), steps)
      ensures pendingRef == Last(old(pendingRef), steps)
    {
      var i := 0;
      while i < |steps|
        invariant 0 <= i <= |steps|
        invariant pendingRef == Last(old(pendingRef), steps[..i])
        invariant backCalls + FallingEdges(pendingRef, steps[i..]) ==
                  old(backCalls) + FallingEdges(old(pendingRef), steps)
      {
        assert steps[i..][1..] == steps[i + 1..];
        assert steps[..i + 1][..i] == steps[..i];
        Effect(steps[i], false);
        i := i + 1;
      }
      assert steps[..i] == steps;
    }
  }
}
