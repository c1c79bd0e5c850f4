/** The walker-ensemble state that moves produce and the sampler yields,
    and the snapshot of the sampler's private random generator. */
module Chain {
  import opened Numbers
  import opened Outcomes
  import opened LogProb

  /** An opaque snapshot of the generator's internal state
      (`RandomState.get_state()`); only equality of snapshots matters. */
  datatype Rng = Rng(stream: nat)

  /** What a state may carry as its random state, and what may be offered
      to `RandomState.set_state`: a snapshot it accepts, None, or any other
      object, which it rejects with an exception. */
  datatype RngPayload = Snapshot(r: Rng) | NoState | Malformed

  /** A `State`: coordinates, log-probabilities (None until computed), the
      shape of the blob array (None when there are no blobs) and the random
      state recorded with it. */
  datatype State = State(coords: Coords, logProb: Option<seq<Num>>, blobs: Option<seq<nat>>, random: RngPayload)

  /** The coordinates form an nwalkers x ndim array. */
  predicate Shaped(c: Coords, nwalkers: nat, ndim: nat)
  {
    |c| == nwalkers && forall i :: 0 <= i < |c| ==> |c[i]| == ndim
  }

  /** A state the sampler may yield: right shapes, log-probabilities known
      and none of them NaN. */
  predicate WellFormed(s: State, nwalkers: nat, ndim: nat)
  {
    && Shaped(s.coords, nwalkers, ndim)
    && s.logProb.Some?
    && |s.logProb.value| == nwalkers
    && !AnyNaN(s.logProb.value)
  }
}
