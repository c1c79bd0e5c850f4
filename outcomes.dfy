/** Optional values, results and the error conditions the sampler raises. */
module Outcomes {

  datatype Option<T> = None | Some(value: T)

  /** The exceptions of the sampling core, one constructor per raise site. */
  datatype Error =
    | IncompatibleDimensions      // initial coords or log-prob of the wrong shape
    | InitialLogProbNaN           // an initial log-probability is NaN
    | InvalidThinning             // thin_by <= 0
    | NoPreviousState             // run_mcmc(None, ...) before any run
    | PreviousStateUnassigned     // AttributeError: `_previous_state` was never assigned
    | BackendShapeMismatch        // a re-used backend of another shape
    | MalformedRandomState        // a re-used backend's random state that set_state rejects
    | EmptyMoveList               // moves=[]: nothing to unpack
    | MixedMoveList               // a list mixing bare moves and (move, weight) pairs
    | InfiniteParameter           // compute_log_prob: a coordinate is infinite
    | NaNParameter                // compute_log_prob: a coordinate is NaN
    | LogProbNaN                  // compute_log_prob: the evaluator returned NaN
    | UnpackFailed                // results mix bare scalars and tuples
    | MissingBlobDtype            // blobs from zero walkers, no dtype to infer
    | RaggedBlobs                 // walkers returned blobs of different shapes
    | InvalidProbabilities        // the move weights are not a distribution
    | MoveRaised                  // an exception raised inside a move's propose

  datatype Result<T> = Ok(value: T) | Err(error: Error)
}
