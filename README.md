# emcee `EnsembleSampler`: a verified model of its bookkeeping

This project models the orchestration layer of emcee's affine-invariant
ensemble sampler (`src/emcee/ensemble.py`). The numerics are opaque here. What
is modelled and proved is the bookkeeping and validation around them:

- parsing the move schedule and normalising its weights;
- the construction-time backend check and the choice of random state;
- the `random_state` getter and the silently failing setter;
- the `compute_log_prob` pipeline (its guards, the per-walker map, structural
  unpacking, the blob squeeze and the NaN guard on the output);
- the `sample` generator (its validation, the grow, the nested proposal loops,
  stamping, tuning, saving and yielding);
- `run_mcmc` and how it resumes;
- `acceptance_fraction`.

Modules, in dependency order:

- `Numbers`: floating-point values as `Finite(real) | PosInf | NegInf | NaN`.
  Also IEEE division of finite operands, and left-to-right sums.
- `Outcomes`: `Option`, `Result`, and one `Error` per exception the core raises.
- `MoveSchedule`: the `moves` argument, its normalised weights, and numpy's
  weighted `choice`. `choice` validates the probability vector, builds the
  cumulative distribution and does a right-sided search.
- `LogProb`: `compute_log_prob`. The user's function is an abstract value
  returning `Scalar(lp)` or `Tuple(lp, rest)`, and blobs are modelled by their
  array shape. A tuple's remaining elements always form an array with at
  least one axis, so `rest` is never empty.
- `Chain`: the ensemble `State` and the random-generator snapshot.
- `SampleTrace`:
  - the schedule of one generator run as a log of events (`Propose`, `Tune`,
    `Save` and `Yield`, each tagged with the round counter `i`);
  - the specification function `Trace(n, k, tune, store)`;
  - the counting lemmas about that log.
- `RunSpec`: what the generator's loops compute, as pure functions. These
  are the specification the sampler's methods are proved against:
  - `Step`: draw a move by weight, propose, and stamp the new ensemble;
  - `Advance`: one round, which is a step followed by the optional tuning;
  - `Rounds`: the k rounds of one thinning block;
  - `Blocks`: the n outer rounds of a run, with what each yields and stores.

  Each stops at the first exception.
- `Backends`: the storage backend as a class with `Reset`, `Grow` and
  `SaveStep`, and the queries the sampler reads back from it.
- `Resume`: what `run_mcmc(None, ...)` resumes from, in two versions: as
  written and corrected (see Findings).
- `Ensemble`: the `Sampler` class.
  - Its fields are the moves, the weights, the move parameters, the private
    generator `_random` and `_previous_state`.
  - Its methods are the constructor, `Create`, `SetRandomState`, the
    generator (split into `Round`, `RunBlock`, `Run` and `Sample`) and
    `RunMcmc`.
  - `AcceptanceFraction` is a function.

Collaborators the sampler calls but does not own are parameters of the
`Sampler`, bundled as a `Collaborators` value:

- the generator's uniform draw `random_sample()`;
- `move.propose`;
- `move.tune`;
- the moves' initial parameters.

The global numpy generator used at construction is a parameter of `Create`.
The condition-number test of the initial ensemble is a boolean parameter of
`Sample`, and it only decides whether a warning is issued.

Where the behaviour is described as removing "trailing" singleton blob axes,
the code (`src/emcee/ensemble.py:444-448`) actually removes every axis of
size 1 after axis 0. The model follows the code: `LogProb.Squeeze` keeps
axis 0 and drops every other axis of size 1.

## Model

| member | source | states |
|---|---|---|
| `MoveSchedule.ParseMoves` | src/emcee/ensemble.py:96-109 | The moves come out in the order given, with one weight per move and at least one move. `moves=None` gives a single stretch move of weight 1, and a single move gives that move with weight 1. An empty list, or a list mixing bare moves and pairs, fails, and the error says which of the two it was. |
| `MoveSchedule.NormalizedSumsToOne` | src/emcee/ensemble.py:108-109 | Dividing by a non-zero total gives finite weights that sum to exactly 1. |
| `MoveSchedule.ZeroTotalIsNotFinite` | src/emcee/ensemble.py:109 | Dividing by a zero total leaves no weight finite: each becomes ±inf or NaN. |
| `MoveSchedule.NormalizedIsDistribution` | src/emcee/ensemble.py:108-109 | Non-negative raw weights with a positive total normalise to a vector that the weighted choice accepts. |
| `MoveSchedule.ParsedWeightsProportional` | src/emcee/ensemble.py:101-109 | When the total is non-zero, each parsed weight is its raw weight divided by the total. |
| `MoveSchedule.ParsedWeightsSumToOne` | src/emcee/ensemble.py:96-109 | After construction the weights are finite and sum to 1, unless the given pair weights total 0. |
| `MoveSchedule.EqualWeights` | src/emcee/ensemble.py:102-109 | An unweighted list of n moves gives each move the weight 1/n. |
| `MoveSchedule.Pick` | src/emcee/ensemble.py:336 | For a valid probability vector and a draw u in [0, 1), the chosen index is in range and has positive weight. The normalised cumulative sum before that index is at most u, and the sum up to and including it is above u. |
| `LogProb.CheckParameters` | src/emcee/ensemble.py:406-409 | Passes exactly when every coordinate is finite. An infinite coordinate is reported before a NaN one. |
| `LogProb.DropOnes` | src/emcee/ensemble.py:446-448 | No size-1 axis remains. The product of the sizes is kept, and the remaining sizes keep their order. |
| `LogProb.DropOnesCounts` | src/emcee/ensemble.py:446-448 | Exactly the size-1 axes are removed, and every other size keeps its number of occurrences. |
| `LogProb.Squeeze` | src/emcee/ensemble.py:444-448 | Axis 0 (the walkers) is kept and no later axis of size 1 remains. Exactly the size-1 axes after axis 0 are dropped, and the others survive in their original order with the same total size. |
| `LogProb.SqueezeIdempotent` | src/emcee/ensemble.py:444-448 | Squeezing an already squeezed shape changes nothing. |
| `LogProb.Unpack` | src/emcee/ensemble.py:426-441 | The log-probabilities are the first elements of the results. There is a blob exactly when every result is a tuple, and its first axis has one row per result. A mix of tuples and scalars fails. A non-empty list of bare scalars always unpacks, to those values and no blob (lines 429-431). A list of tuples unpacks exactly when the blob array can be built, and otherwise fails with that error. |
| `LogProb.ComputeLogProb` | src/emcee/ensemble.py:403-454 | The infinity guard runs first, then the NaN-coordinate guard. With a per-walker evaluator, there is one log-probability per walker, in walker order. With either evaluator, the log-probabilities returned are exactly the first elements of the results. There is no blob exactly when the results are not all tuples. With finite coordinates, an unpacking failure is returned as it is. Once the guards and the unpacking pass, the call succeeds exactly when no log-probability is NaN, and otherwise fails with the NaN error. |
| `LogProb.InfiniteLogProbsPass` | src/emcee/ensemble.py:426-454 | When every walker returns a bare log-probability, finite or infinite in any mix but never NaN, and the coordinates are finite, the call succeeds. It returns those values in walker order, with no blob. |
| `LogProb.BlobIsRest` | src/emcee/ensemble.py:426-448 | When every walker returns `(lp, *blob)` with a common blob shape, the blob array has shape (nwalkers, blob shape) with its singleton axes squeezed. |
| `SampleTrace.CheckpointAtBlockEnd` | src/emcee/ensemble.py:346 | Inner round t of outer round j meets the `(i + 1) % k == 0` test exactly when it is the last inner round. |
| `SampleTrace.BaseIsProduct` | src/emcee/ensemble.py:332-350 | The round counter `i` at the start of outer round j, counted up by k per block, is jk. |
| `SampleTrace.StepRounds` | src/emcee/ensemble.py:336-347 | One proposal round proposes once, tunes only when `tune` is set, saves only when `store` is set and the checkpoint test holds, and never yields. |
| `SampleTrace.InnerProposals` | src/emcee/ensemble.py:334-350 | The first t inner rounds of a block that starts at round lo propose at rounds lo, …, lo + t - 1, in order. |
| `SampleTrace.InnerTunes` | src/emcee/ensemble.py:334-350 | They tune at those same rounds when `tune` is set, and never otherwise. |
| `SampleTrace.InnerSaves` | src/emcee/ensemble.py:334-350 | They save exactly once, at the block's last round lo + k - 1, and only when the block is complete and `store` is set. |
| `SampleTrace.InnerYields` | src/emcee/ensemble.py:334-354 | They never yield: the yield comes after the inner loop. |
| `SampleTrace.BlockRounds` | src/emcee/ensemble.py:333-354 | An outer round makes k proposals and one yield. The yield is at its last round, which is also the one saved when `store` is set. |
| `SampleTrace.TraceRounds` | src/emcee/ensemble.py:330-354 | With n outer rounds of k: proposals happen at rounds 0, …, nk - 1, and tuning at the same rounds only if `tune` is set. Yields come at rounds k - 1, 2k - 1, …, nk - 1, and saves at those same rounds only if `store` is set. |
| `SampleTrace.TraceCounts` | src/emcee/ensemble.py:330-354 | Exactly nk proposals and n yields. Exactly n saves with `store` and none without, and nk tunings with `tune` and none without. Yield j comes after proposal round (j + 1)k - 1. |
| `SampleTrace.YieldAfterProposals` | src/emcee/ensemble.py:330-354 | The log up to the j-th yield is a prefix of the whole log, ends with that yield, and holds exactly jk proposals and j yields. |
| `SampleTrace.TracePrefix` | src/emcee/ensemble.py:333 | A run of m outer rounds is a prefix of a run of n ≥ m rounds. |
| `SampleTrace.PartialRunIsPrefix` | src/emcee/ensemble.py:333-354 | A run that raises part-way through an outer round has logged a prefix of the full schedule. |
| `RunSpec.StepFacts` | src/emcee/ensemble.py:336-340 | Invalid weights fail with the probability error and nothing drawn. With a valid distribution and moves that never raise, the step succeeds. A failure is either invalid weights or an exception, and with valid weights it is the exception raised by the proposal of the move drawn by `Pick` from this step's draw. A success has that move, and that proposal's mask and generator state. The new ensemble carries the generator state after the proposal, and the drawn move has positive weight. |
| `RunSpec.StepKeepsShape` | src/emcee/ensemble.py:339-340 | If moves keep ensembles well formed, a step from a well-formed ensemble gives a well-formed one with one acceptance flag per walker. |
| `RunSpec.AdvanceFacts` | src/emcee/ensemble.py:336-343 | In one round, only tuning changes the parameters. A failed round keeps the ensemble and the parameters, and invalid weights leave the whole configuration untouched. With valid weights and moves that never raise, the round completes; a failure has one of the two causes; a completed round ends on a stamped ensemble. |
| `RunSpec.RoundsFacts` | src/emcee/ensemble.py:334-350 | The same for a thinning block of t rounds. Invalid weights fail the first round with the start configuration untouched. |
| `RunSpec.RoundsStopped` | src/emcee/ensemble.py:334-350 | Once a block has raised, further rounds change nothing: the exception leaves the loop. |
| `RunSpec.RoundsKeepShape` | src/emcee/ensemble.py:334-350 | A block started from a well-formed ensemble stays well formed, and a completed round records one acceptance flag per walker. |
| `RunSpec.Blocks` | src/emcee/ensemble.py:333-354 | A run of n outer rounds yields at most n states, with one stored mask per yield, and exactly n when nothing raised. |
| `RunSpec.BlocksFacts` | src/emcee/ensemble.py:333-354 | Only tuning changes the parameters. With valid weights and moves that never raise, the run completes. A failure has one of the two causes. Invalid weights fail before the first yield, with the start configuration untouched. |
| `RunSpec.BlocksNext` | src/emcee/ensemble.py:333-354 | Outer round j + 1 runs one block from where round j stopped. It yields the block's last ensemble and records its mask, or stops with the block's exception. |
| `RunSpec.BlocksStopped` | src/emcee/ensemble.py:333-354 | Once a run has raised, further outer rounds change nothing. |
| `RunSpec.BlocksKeepShape` | src/emcee/ensemble.py:333-354 | Every yielded ensemble is well formed and stamped with a snapshot, with one mask entry per walker. On success, the last yield is the final ensemble and carries the final generator state. |
| `Backends.Backend.constructor` | src/emcee/ensemble.py:117 | A default backend starts uninitialised and empty. |
| `Backends.Backend.Reset` | src/emcee/ensemble.py:181-186 | Reset initialises the backend to the sampler's shape, with no stored steps and zero accepted counts. |
| `Backends.Backend.Grow` | src/emcee/ensemble.py:317-318 | Grow makes room for n more steps beyond those stored, never shrinking the capacity. |
| `Backends.Backend.SaveStep` | src/emcee/ensemble.py:346-347 | The state is appended to the stored steps and each walker's accepted count goes up by its mask bit. Counts never exceed the number of stored steps. |
| `Resume.AsWrittenResumeRaisesAttributeError` | src/emcee/ensemble.py:119-142 | For the constructor as written, a re-used backend with no stored step makes `run_mcmc(None, ...)` raise AttributeError. |
| `Resume.PreviousState` | src/emcee/ensemble.py:119-142 | Corrected constructor: `_previous_state` holds a state exactly when the backend was already initialised and has stored a step, and that state is the last stored one. |
| `Resume.StartState` | src/emcee/ensemble.py:371-377 | A given state is used as is. Otherwise the remembered state is used, and the run fails with the "never been called" error exactly when there is none. |
| `Resume.CorrectedResume` | src/emcee/ensemble.py:371-377 | With the corrected constructor, resuming over any backend starts from its last stored sample, or fails with the intended error. |
| `Ensemble.Prepare` | src/emcee/ensemble.py:280-288 | The state passes exactly when it has one log-probability per walker and none is NaN. Given log-probabilities are kept as they are; missing ones are computed, and compute errors propagate. A wrong length, of given or of computed log-probabilities, gives the dimension error (lines 282-283), and a NaN among given ones gives the initial-NaN error. |
| `Ensemble.PerWalkerPrepare` | src/emcee/ensemble.py:280-283 | With a per-walker evaluator, computing the missing log-probabilities never fails the length check. |
| `Ensemble.Fraction` | src/emcee/ensemble.py:459 | A count over a total is NaN when the total is 0. Otherwise it is finite, lies in [0, 1], and times the total gives the count back. |
| `Ensemble.Sampler.constructor` | src/emcee/ensemble.py:96-151 | The fields hold the parsed schedule, the shape, the collaborators, the backend and the given generator and previous state. Each move starts with its initial parameters. |
| `Ensemble.Sampler.Create` | src/emcee/ensemble.py:96-147 | The sampler succeeds exactly when move parsing succeeds, and a re-used backend must also match the sampler's shape and not hold a malformed last random state. A malformed state fails with its own error, as `set_state` raises at line 147. Every failure leaves the backend untouched. A fresh backend is reset, with nothing stored, zero counts and zero capacity, and the sampler is seeded from the global generator with nothing to resume from. A re-used backend is left unchanged. It is seeded from its last random state, or from the global generator only when it has none (lines 135-137). It resumes from its last sample when it has one. A re-used backend with no stored step resumes from nothing, so a later `RunMcmc(None, ...)` fails with the "never been called" error; the code as written raises AttributeError there (see Findings). |
| `Ensemble.Sampler.RandomState` | src/emcee/ensemble.py:153-163 | The getter always returns a usable snapshot of the current generator. |
| `Ensemble.Sampler.SetRandomState` | src/emcee/ensemble.py:165-175 | A usable snapshot replaces the generator state, and anything else leaves it unchanged. |
| `Ensemble.Sampler.Round` | src/emcee/ensemble.py:334-350 | The new ensemble, parameters and generator are exactly those of one `Advance` round from the old ones. That is the move drawn by weight, its proposal stamped with the generator state after it, and that move's tuning under `tune`. At a checkpoint with `store`, the new ensemble is appended to the stored steps and each walker's accepted count rises by its mask bit. Otherwise nothing is stored. Invalid weights fail before any draw, with the generator untouched. With valid weights and moves that never raise, the round succeeds. A failure carries the probability error or the proposal's own exception, and logs nothing. A success logs exactly the events of `StepBody`. |
| `Ensemble.Sampler.RunBlock` | src/emcee/ensemble.py:334-351 | The block ends in exactly the configuration and exception of `Rounds` over k rounds from the start. With `store`, a completed block stores its last ensemble and adds the last round's mask; otherwise nothing is stored. The log is a prefix of the block's inner rounds, and all of them on success. With valid weights and moves that never raise, the block completes. |
| `Ensemble.Sampler.OuterRound` | src/emcee/ensemble.py:333-354 | One pass of the outer loop keeps the loop's invariant `Progressed`: the run so far is the first j + 1 outer rounds of `Blocks`. The log is the trace so far, and the backend holds what those rounds stored. |
| `Ensemble.Sampler.RunEnds` | src/emcee/ensemble.py:333-354 | When the loop ends, after n outer rounds or at the first exception, the yields, the exception, the parameters and the generator are those of `Blocks` over n rounds. The accepted counts are tallied from its masks. The log is a prefix of `Trace`, and equals it on success. With valid weights and moves that never raise, the run completes. |
| `Ensemble.Sampler.Run` | src/emcee/ensemble.py:329-354 | The yielded ensembles, the exception, and the final parameters and generator are exactly those of `Blocks` over n rounds from `init` and the old parameters and generator. With `store`, the stored steps grow by exactly the yielded ensembles, and each walker's accepted count by its bits in the yielded rounds' masks. Without `store`, the backend is untouched. The log is always a prefix of `Trace(n, k, tune, store)` and equals it on success. With valid weights and moves that never raise, the run succeeds. |
| `Ensemble.Planned` | src/emcee/ensemble.py:242-354 | What `sample` computes: a bad coordinate shape fails first, with nothing yielded and the generator untouched. A failed preparation or `thin_by <= 0` fails with nothing yielded, the generator restored from the initial state. A failure after that is invalid weights or a move's exception. With valid input, valid weights and moves that never raise, exactly `iterations` ensembles are yielded. |
| `Ensemble.Sampler.Sample` | src/emcee/ensemble.py:242-354 | The yields, the exception, the parameters, the generator and what is stored are exactly those of `Planned` for the old state. A bad coordinate shape fails before anything else: nothing is logged or yielded, and the generator is untouched. A failed preparation or `thin_by <= 0` fails before any proposal, with nothing yielded. The generator state then comes from the initial state, or is left unchanged if that one is unusable. The warning is issued exactly on an ill-conditioned ensemble without the skip flag. With `store` and valid input, the capacity is grown by exactly `iterations`, and otherwise left as it was. With valid input, valid weights and moves that never raise, it succeeds. Every yielded ensemble is well formed and stamped. |
| `Ensemble.Sampler.RunMcmc` | src/emcee/ensemble.py:371-386 | The run starts from `StartState`: the given state, else the remembered one. With neither, it fails with the "never been called" error, leaving the generator, the parameters, what is stored and the capacity unchanged. Otherwise its outcome is `Planned` from that start. It fails exactly when that run raises, with that exception, and otherwise returns the run's last yield. The generator, the parameters and what is stored are those of that run. With something to start from, valid weights, moves that never raise, a well-shaped and valid start and `thin_by >= 1`, it succeeds. An error leaves `_previous_state` unchanged. On success `_previous_state` is the returned last yield, present exactly when `nsteps > 0`, well formed and carrying the current generator state. With `store`, it is the last stored step, and exactly `nsteps` steps were stored. The capacity grows as in `Sample` from the start state: with `store` and valid input it makes room for exactly `nsteps` more steps, and otherwise it is left as it was. |
| `Ensemble.Sampler.AcceptanceFraction` | src/emcee/ensemble.py:456-459 | One entry per walker. Before any stored step every entry is NaN (0/0). Afterwards each entry is accepted/iteration, a finite value in [0, 1]. |

## Left out

- The stretch move's proposal arithmetic (`src/emcee/moves/stretch.py`) is not modelled. Every move is an abstract `propose`. `ProposalsKeepShape` assumes that it maps a well-formed ensemble to a well-formed one with one acceptance flag per walker. Well formed means coordinates of the sampler's shape, log-probabilities present, one per walker, and none NaN. Every "yielded ensemble is well formed" guarantee rests on that assumption.
- `Resume.PreviousState` is the corrected `_previous_state` assignment, and `Ensemble.Sampler.Create` uses it. So on a re-used backend with no stored step, `RunMcmc(None, ...)` fails with the "never been called" error where the code as written raises AttributeError. `Resume.AsWrittenResumeRaisesAttributeError` models the code as written.
- `move.tune` is an abstract function of a move's parameters, the new state and the mask.
- The initial-ensemble condition-number test (`np.cov`, `np.linalg.cond`) is floating-point linear algebra. It is the boolean `illConditioned`, which only decides the warning.
- Floating-point rounding is not modelled. Weights, sums and the acceptance fraction are exact reals. A normalised weight vector whose rounded sum misses 1 is therefore never rejected by the tolerance test in the model.
- numpy's dtype inference for blobs is reduced to whether `blobs_dtype` was given. A ragged blob list is an error even under an `object` dtype, where numpy would build an object array.
- Blobs are modelled by their array shape only, not by their contents.
- The vectorized evaluator is one call on the whole batch, and its result list may have any length. The length check after it, at line 282, is modelled.
- `pool.map` is a sequential, order-preserving map.
- `_FunctionWrapper`, which prints a traceback when the function fails, is not modelled (I/O).
- `MoveSchedule.ParseMoves`: a list mixing bare moves and `(move, weight)` pairs is rejected when the sampler is built. The code accepts such a list and fails later, when the list is used to draw or propose.
- `LogProb.ComputeLogProb`: the user's function never raises, since both evaluators are total functions. An exception it raises during the initial computation (ensemble.py:281) would leave `sample` before any yield, and so would a first tuple element that `float` cannot convert (line 427); neither is modelled. Exceptions raised while proposing are modelled, as `Raised`.
- The deprecated arguments (`a`, `threads`, `live_dangerously`, `runtime_sortingfn`, `thin`, `log_prob0`, `rstate0`, `blobs0`) and the deprecated properties are not modelled.
- Pickling (`__getstate__`), the progress bar, and the `get_chain`/`get_blobs`/`get_log_prob`/`get_autocorr_time` queries are not modelled.
- The backend implementation (`src/emcee/backends/`) is not part of this model. `Backends.Backend` models only what the sampler relies on. Its `Grow` is read as "make room for n more steps". The shape checks of `save_step` become a precondition, which the sampler always meets.
- `State(initial_state)`'s coercion of a bare coordinate array into a state is not modelled: `Sample` takes a `State`.
- Integer conversion of `iterations` and `thin_by` is not modelled: `iterations` is a natural number, and `thin_by` an integer that is checked.
- The generator is run to exhaustion. A caller that stops iterating `sample` early is modelled by the prefix property of `Run`'s log, not as a separate operation.
- Which moves are stored as distinct objects: moves are compared by value, so two equal moves in a list share their tuned parameters.

## Findings

| source | as written | input that shows it | evidently intended | confidence | as-written member | corrected member |
|---|---|---|---|---|---|---|
| src/emcee/ensemble.py:119-142 | When the backend is already initialised but has stored no step (iteration 0), `_previous_state` is never assigned. | A backend that was reset but never saved to is passed to a new sampler, which then calls `run_mcmc(None, 10)`. | The constructor should assign `None`, so that `run_mcmc` (lines 371-376) raises its "never been called" ValueError instead of an AttributeError. | not executed | `Resume.AsWrittenResumeRaisesAttributeError` | `Resume.CorrectedResume` |
