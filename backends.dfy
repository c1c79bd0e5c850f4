/** The storage backend as the sampler drives it: `reset`, `grow`,
    `save_step` and the queries the sampler reads back (`initialized`,
    `shape`, `iteration`, `accepted`, `random_state`, `get_last_sample`). */
module Backends {
  import opened Outcomes
  import opened Chain

  /** Per-walker counts after one stored step with acceptance mask `mask`
      (a walker the mask does not cover counts as not accepted). */
  function AddMask(counts: seq<nat>, mask: seq<bool>): (r: seq<nat>)
    ensures |r| == |counts|
    ensures forall w :: 0 <= w < |r| ==> r[w] == counts[w] + (if w < |mask| && mask[w] then 1 else 0)
  {
    seq(|counts|, w requires 0 <= w < |counts| => counts[w] + (if w < |mask| && mask[w] then 1 else 0))
  }

  /** Per-walker counts after stored steps with the given masks, in order. */
  function Tally(counts: seq<nat>, masks: seq<seq<bool>>): (r: seq<nat>)
    ensures |r| == |counts|
    ensures forall w :: 0 <= w < |r| ==> counts[w] <= r[w] <= counts[w] + |masks|
  {
    if masks == [] then counts
    else AddMask(Tally(counts, masks[..|masks| - 1]), masks[|masks| - 1])
  }

  /** Counting one more mask adds it to the tally of the earlier ones. */
  lemma TallyNext(counts: seq<nat>, masks: seq<seq<bool>>, mask: seq<bool>)
    ensures Tally(counts, masks + [mask]) == AddMask(Tally(counts, masks), mask)
  {
    assert (masks + [mask])[..|masks|] == masks;
  }

  class Backend {
    var initialized: bool
    var nwalkers: nat
    var ndim: nat
    /** The stored steps, oldest first. */
    var saved: seq<State>
    /** Per walker, how many stored steps accepted that walker's proposal. */
    var accepted: seq<nat>
    /** Number of steps storage has been allocated for. */
    var capacity: nat

    ghost predicate Valid()
      reads this
    {
      && |accepted| == nwalkers
      && |saved| <= capacity
      && (forall w :: 0 <= w < nwalkers ==> accepted[w] <= |saved|)
      && (forall q :: 0 <= q < |saved| ==> WellFormed(saved[q], nwalkers, ndim))
    }

    /** A fresh, uninitialised in-memory backend. */
    constructor ()
      ensures Valid() && !initialized
      ensures nwalkers == 0 && ndim == 0 && saved == [] && accepted == [] && capacity == 0
    {
      initialized, nwalkers, ndim := false, 0, 0;
      saved, accepted, capacity := [], [], 0;
    }

    /** The number of stored steps. */
    function Iteration(): nat
      reads this
    {
      |saved|
    }

    /** The random state recorded with the last stored step, if any. */
    function LastRandomState(): RngPayload
      reads this
    {
      if saved == [] then NoState else saved[|saved| - 1].random
    }

    /** `get_last_sample()`. */
    function LastSample(): Option<State>
      reads this
    {
      if saved == [] then None else Some(saved[|saved| - 1])
    }

    /** Clear the storage for a run of the given shape. */
    method Reset(nw: nat, nd: nat)
      modifies this
      ensures Valid() && initialized
      ensures nwalkers == nw && ndim == nd
      ensures saved == [] && accepted == seq(nw, _ => 0) && capacity == 0
    {
      initialized, nwalkers, ndim := true, nw, nd;
      saved, accepted, capacity := [], seq(nw, _ => 0), 0;
    }

    /** Make room for n more steps. */
    method Grow(n: nat)
      requires Valid()
      modifies this`capacity
      ensures Valid()
      ensures capacity == if old(capacity) >= |saved| + n then old(capacity) else |saved| + n
    {
      if capacity < |saved| + n {
        capacity := |saved| + n;
      }
    }

    /** Store one step and add its acceptance mask to the per-walker counts. */
    method SaveStep(s: State, mask: seq<bool>)
      requires Valid()
      requires |saved| < capacity
      requires WellFormed(s, nwalkers, ndim) && |mask| == nwalkers
      modifies this`saved, this`accepted
      ensures Valid()
      ensures saved == old(saved) + [s]
      ensures accepted == AddMask(old(accepted), mask)
      ensures forall w :: 0 <= w < nwalkers ==> accepted[w] == old(accepted[w]) + (if mask[w] then 1 else 0)
    {
      saved := saved + [s];
      accepted := AddMask(accepted, mask);
    }
  }
}
