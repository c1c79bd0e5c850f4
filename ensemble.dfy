/** The affine-invariant ensemble sampler: construction over a fresh or
    re-used backend, the sampling generator, run_mcmc and the acceptance
    fraction. */
module Ensemble {
  import opened Numbers
  import opened Outcomes
  import opened MoveSchedule
  import opened LogProb
  import opened Chain
  import opened SampleTrace
  import opened Backends
  import opened Resume
  import opened RunSpec

  /** The validation at the top of the generator, after the shape check:
      use the given log-probabilities or compute them, then require one per
      walker and none NaN. */
  function Prepare(init: State, ev: Evaluator, dtypeGiven: bool, nwalkers: nat, ndim: nat): (r: Result<State>)
    requires Shaped(init.coords, nwalkers, ndim)
    ensures r.Ok? ==> WellFormed(r.value, nwalkers, ndim)
    ensures r.Ok? ==> r.value.coords == init.coords && r.value.random == init.random
    ensures init.logProb.Some? ==> (r.Ok? <==> |init.logProb.value| == nwalkers && !AnyNaN(init.logProb.value))
    ensures init.logProb.Some? && r.Ok? ==> r.value == init
    ensures init.logProb.Some? && |init.logProb.value| != nwalkers ==> r == Err(IncompatibleDimensions)
    ensures init.logProb.Some? && |init.logProb.value| == nwalkers && AnyNaN(init.logProb.value) ==>
      r == Err(InitialLogProbNaN)
    ensures init.logProb.None? && ComputeLogProb(ev, dtypeGiven, init.coords).Err? ==>
      r == Err(ComputeLogProb(ev, dtypeGiven, init.coords).error)
    ensures init.logProb.None? && ComputeLogProb(ev, dtypeGiven, init.coords).Ok? ==>
      var e := ComputeLogProb(ev, dtypeGiven, init.coords).value;
      (r.Ok? <==> |e.logProb| == nwalkers) &&
      (r.Ok? ==> r.value.logProb == Some(e.logProb) && r.value.blobs == e.blobs)
    ensures init.logProb.None? && ComputeLogProb(ev, dtypeGiven, init.coords).Ok? &&
            |ComputeLogProb(ev, dtypeGiven, init.coords).value.logProb| != nwalkers ==>
      r == Err(IncompatibleDimensions)
  {
    var computed :=
      if init.logProb.Some? then Ok(init)
      else match ComputeLogProb(ev, dtypeGiven, init.coords)
        case Err(e) => Err(e)
        case Ok(e) => Ok(init.(logProb := Some(e.logProb), blobs := e.blobs));
    match computed
    case Err(e) => Err(e)
    case Ok(st) =>
      if |st.logProb.value| != nwalkers then Err(IncompatibleDimensions)
      else if AnyNaN(st.logProb.value) then Err(InitialLogProbNaN)
      else Ok(st)
  }

  /** In per-walker mode the computed log-probabilities always come one per
      walker, so preparing a state without them fails only when computing
      them does. */
  lemma PerWalkerPrepare(init: State, f: seq<Num> -> EvalResult, dtypeGiven: bool, nwalkers: nat, ndim: nat)
    requires Shaped(init.coords, nwalkers, ndim) && init.logProb.None?
    ensures Prepare(init, PerWalker(f), dtypeGiven, nwalkers, ndim).Ok?
        <==> ComputeLogProb(PerWalker(f), dtypeGiven, init.coords).Ok?
  {
  }

  /** A count over a total as a float division: NaN for 0/0. */
  function Fraction(a: nat, n: nat): (r: Num)
    requires a <= n
    ensures n == 0 ==> r.NaN?
    ensures n > 0 ==> r.Finite? && 0.0 <= r.v <= 1.0 && r.v * n as real == a as real
  {
    if n > 0 then
      assert a as real / n as real <= 1.0;
      Divide(a as real, n as real)
    else
      Divide(a as real, n as real)
  }

  /** The `random_state` setter's effect on a generator: a snapshot is
      installed, anything else is rejected and ignored. */
  function Restored(current: Rng, payload: RngPayload): (r: Rng)
    ensures payload.Snapshot? ==> r == payload.r
    ensures !payload.Snapshot? ==> r == current
  {
    if payload.Snapshot? then payload.r else current
  }

  /** The last element of a run's yields, None for an empty run. */
  function Last(ys: seq<State>): (r: Option<State>)
    ensures r.None? <==> ys == []
    ensures r.Some? ==> r.value == ys[|ys| - 1]
  {
    if ys == [] then None else Some(ys[|ys| - 1])
  }

  class Sampler {
    const nwalkers: nat
    const ndim: nat
    const evaluator: Evaluator
    /** Whether `blobs_dtype` was given. */
    const dtypeGiven: bool
    const collaborators: Collaborators
    const backend: Backend
    /** The normalised move schedule. */
    const moves: seq<Move>
    const weights: seq<Num>
    /** The moves' mutable parameters, keyed by move identity. */
    var params: map<Move, Params>
    /** The private generator `_random`. */
    var random: Rng
    /** `_previous_state`: what run_mcmc(None, ...) resumes from. */
    var previousState: Option<State>

    ghost predicate Valid()
      reads this, backend
    {
      && backend.Valid()
      && backend.initialized && backend.nwalkers == nwalkers && backend.ndim == ndim
      && |moves| == |weights| >= 1
      && Covers(moves, params)
      && UnitDraws(collaborators)
      && ProposalsKeepShape(collaborators, nwalkers, ndim)
    }

    constructor (nwalkers: nat, ndim: nat, evaluator: Evaluator, dtypeGiven: bool, collaborators: Collaborators,
                 backend: Backend, schedule: Schedule, random: Rng, previous: Option<State>)
      requires backend.Valid() && backend.initialized && backend.nwalkers == nwalkers && backend.ndim == ndim
      requires |schedule.moves| == |schedule.weights| >= 1
      requires UnitDraws(collaborators) && ProposalsKeepShape(collaborators, nwalkers, ndim)
      ensures Valid()
      ensures this.nwalkers == nwalkers && this.ndim == ndim && this.evaluator == evaluator
      ensures this.dtypeGiven == dtypeGiven && this.collaborators == collaborators && this.backend == backend
      ensures moves == schedule.moves && weights == schedule.weights
      ensures params == map m | m in schedule.moves :: collaborators.initialParams(m)
      ensures this.random == random && previousState == previous
    {
      this.nwalkers, this.ndim, this.evaluator := nwalkers, ndim, evaluator;
      this.dtypeGiven, this.collaborators, this.backend := dtypeGiven, collaborators, backend;
      this.moves, this.weights := schedule.moves, schedule.weights;
      this.params := map m | m in schedule.moves :: collaborators.initialParams(m);
      this.random, this.previousState := random, previous;
    }

    /** `EnsembleSampler(...)`: parse the moves, then either reset a fresh
        backend and seed from the global generator, or check a re-used
        backend's shape and resume from its last random state (the global
        generator's when it has none) and its last sample. */
    static method Create(nwalkers: nat, ndim: nat, evaluator: Evaluator, arg: MovesArg, backend: Backend,
                         dtypeGiven: bool, collaborators: Collaborators, globalRandom: Rng)
      returns (r: Result<Sampler>)
      requires backend.Valid()
      requires UnitDraws(collaborators) && ProposalsKeepShape(collaborators, nwalkers, ndim)
      modifies backend
      ensures ParseMoves(arg).Err? ==> r == Err(ParseMoves(arg).error) && unchanged(backend)
      ensures ParseMoves(arg).Ok? && old(backend.initialized)
              && (old(backend.nwalkers) != nwalkers || old(backend.ndim) != ndim) ==>
        r == Err(BackendShapeMismatch) && unchanged(backend)
      ensures ParseMoves(arg).Ok? && old(backend.initialized)
              && old(backend.nwalkers) == nwalkers && old(backend.ndim) == ndim
              && old(backend.LastRandomState()).Malformed? ==>
        r == Err(MalformedRandomState) && unchanged(backend)
      ensures r.Ok? ==> fresh(r.value) && r.value.Valid() && r.value.backend == backend
      ensures r.Ok? ==> r.value.nwalkers == nwalkers && r.value.ndim == ndim && r.value.evaluator == evaluator
      ensures r.Ok? ==> r.value.dtypeGiven == dtypeGiven && r.value.collaborators == collaborators
      ensures r.Ok? ==> r.value.moves == ParseMoves(arg).value.moves && r.value.weights == ParseMoves(arg).value.weights
      ensures r.Ok? ==> r.value.params == map m | m in r.value.moves :: collaborators.initialParams(m)
      ensures r.Ok? && !old(backend.initialized) ==>
        && backend.saved == [] && backend.accepted == seq(nwalkers, _ => 0) && backend.capacity == 0
        && r.value.random == globalRandom && r.value.previousState == None
      ensures r.Ok? && old(backend.initialized) ==>
        && unchanged(backend)
        && r.value.random == (if backend.LastRandomState().Snapshot? then backend.LastRandomState().r else globalRandom)
        && r.value.previousState == PreviousState(true, backend.saved)
      ensures r.Ok? <==>
        && ParseMoves(arg).Ok?
        && (old(backend.initialized) ==>
              old(backend.nwalkers) == nwalkers && old(backend.ndim) == ndim && !old(backend.LastRandomState()).Malformed?)
    {
      var parsed := ParseMoves(arg);
      if parsed.Err? {
        return Err(parsed.error);
      }
      var rng: Rng;
      var previous: Option<State>;
      if !backend.initialized {
        previous := None;
        backend.Reset(nwalkers, ndim);
        rng := globalRandom;
      } else {
        if backend.nwalkers != nwalkers || backend.ndim != ndim {
          return Err(BackendShapeMismatch);
        }
        var last := backend.LastRandomState();
        match last {
          case Malformed =>
            return Err(MalformedRandomState);
          case NoState =>
            rng := globalRandom;
          case Snapshot(q) =>
            rng := q;
        }
        previous := PreviousState(true, backend.saved);
      }
      var s := new Sampler(nwalkers, ndim, evaluator, dtypeGiven, collaborators, backend, parsed.value, rng, previous);
      return Ok(s);
    }

    /** The `random_state` getter. */
    function RandomState(): (r: RngPayload)
      reads this
      ensures r.Snapshot? && r.r == random
    {
      Snapshot(random)
    }

    /** The `random_state` setter: a payload the generator rejects is ignored. */
    method SetRandomState(payload: RngPayload)
      modifies this`random
      ensures payload.Snapshot? ==> random == payload.r
      ensures !payload.Snapshot? ==> random == old(random)
    {
      if payload.Snapshot? {
        random := payload.r;
      }
    }

    /** Inner round t of outer round j, round i = jk + t of the generator's
        counter: choose a move by weight, propose, record the generator
        state on the new ensemble, tune if asked, and store the step when
        `t == k - 1`, which is when it completes a thinning block. */
    method Round(state: State, j: nat, t: nat, k: nat, tune: bool, store: bool)
      returns (next: State, events: seq<Event>, err: Option<Error>)
      requires Valid() && WellFormed(state, nwalkers, ndim) && t < k
      requires store && t == k - 1 ==> |backend.saved| < backend.capacity
      modifies this`random, this`params, backend`saved, backend`accepted
      ensures Valid()
      ensures var o := Advance(collaborators, moves, weights, tune, Config(state, old(params), old(random)));
        && Config(next, params, random) == o.cfg && err == o.err
        && (err.None? && store && t == k - 1 ==>
              backend.saved == old(backend.saved) + [next] && backend.accepted == AddMask(old(backend.accepted), o.mask))
      ensures !(err.None? && store && t == k - 1) ==>
        backend.saved == old(backend.saved) && backend.accepted == old(backend.accepted)
      ensures err.None? ==> events == StepBody(RoundNo(j, t, k), tune, store && t == k - 1)
      ensures err.Some? ==> events == []
      ensures ProbabilityVector(weights) && NeverRaises(collaborators) ==> err.None?
      ensures err.Some? ==> FailureCause(collaborators, weights, err.value)
      ensures !ProbabilityVector(weights) ==> err == Some(InvalidProbabilities) && random == old(random)
      ensures err.None? ==> WellFormed(next, nwalkers, ndim) && next.random == Snapshot(random)
      ensures !tune ==> params == old(params)
    {
      var i := RoundNo(j, t, k);
      CheckpointAtBlockEnd(j, t, k);
      if !ProbabilityVector(weights) {
        return state, [], Some(InvalidProbabilities);
      }
      var draw := collaborators.uniform(random);
      random := draw.1;
      var move := moves[Pick(weights, draw.0)];
      var proposal := collaborators.propose(move, params[move], state, random);
      random := proposal.rng;
      if proposal.Raised? {
        return state, [], Some(proposal.error);
      }
      next := proposal.next.(random := RandomState());
      events := [Propose(i)];
      if tune {
        params := params[move := collaborators.tune(move, params[move], next, proposal.accepted)];
        events := events + [Tune(i)];
      }
      if store && (i + 1) % k == 0 {
        backend.SaveStep(next, proposal.accepted);
        events := events + [Save(i)];
      }
      err := None;
    }

    /** Outer round j of the generator: k proposal rounds in a row, stopping
        at the first exception. */
    method RunBlock(init: State, j: nat, k: nat, tune: bool, store: bool)
      returns (state: State, events: seq<Event>, err: Option<Error>)
      requires Valid() && WellFormed(init, nwalkers, ndim) && k >= 1
      requires store ==> |backend.saved| < backend.capacity
      modifies this`random, this`params, backend`saved, backend`accepted
      ensures Valid()
      ensures var o := Rounds(collaborators, moves, weights, tune, Config(init, old(params), old(random)), k);
        && Config(state, params, random) == o.cfg && err == o.err
        && (store && err.None? ==>
              backend.saved == old(backend.saved) + [state] && backend.accepted == AddMask(old(backend.accepted), o.mask))
      ensures !(store && err.None?) ==> backend.saved == old(backend.saved) && backend.accepted == old(backend.accepted)
      ensures events <= Inner(j, k, k, tune, store)
      ensures err.None? ==> events == Inner(j, k, k, tune, store)
      ensures ProbabilityVector(weights) && NeverRaises(collaborators) ==> err.None?
      ensures err.Some? ==> FailureCause(collaborators, weights, err.value)
      ensures err.None? ==> WellFormed(state, nwalkers, ndim) && state.random == Snapshot(random)
      ensures !tune ==> params == old(params)
    {
      ghost var start := Config(init, params, random);
      ghost var lastMask: seq<bool> := [];
      state, events, err := init, [], None;
      var t := 0;
      while t < k && err.None?
        invariant 0 <= t <= k
        invariant Valid() && (err.None? ==> WellFormed(state, nwalkers, ndim))
        invariant Rounds(collaborators, moves, weights, tune, start, t) == Progress(Config(state, params, random), err, lastMask)
        invariant err.None? ==> events == Inner(j, t, k, tune, store)
        invariant err.Some? ==> events <= Inner(j, k, k, tune, store)
        invariant err.None? && t > 0 ==> state.random == Snapshot(random)
        invariant store && t == k && err.None? ==>
          backend.saved == old(backend.saved) + [state] && backend.accepted == AddMask(old(backend.accepted), lastMask)
        invariant !(store && t == k && err.None?) ==> backend.saved == old(backend.saved) && backend.accepted == old(backend.accepted)
        invariant !tune ==> params == old(params)
        invariant ProbabilityVector(weights) && NeverRaises(collaborators) ==> err.None?
        invariant err.Some? ==> FailureCause(collaborators, weights, err.value)
      {
        ghost var o := Advance(collaborators, moves, weights, tune, Config(state, params, random));
        var step;
        state, step, err := Round(state, j, t, k, tune, store);
        if err.Some? {
          InnerPrefix(j, t, k, k, tune, store);
        } else {
          InnerStep(j, t, k, tune, store);
          events := events + step;
        }
        lastMask := o.mask;
        t := t + 1;
      }
      if err.Some? {
        RoundsStopped(collaborators, moves, weights, tune, start, t, k);
      }
    }

    /** The state of the generator after j of n outer rounds, started from
        `start` with the backend holding `saved0` and `accepted0`: the run so
        far is the first j outer rounds of `Blocks` (stopped early when
        `err` is set), the event log is the trace so far, and the backend
        holds what those rounds stored. */
    ghost predicate Progressed(start: Config, j: nat, n: nat, k: nat, tune: bool, store: bool,
                               state: State, log: seq<Event>, yielded: seq<State>, masks: seq<seq<bool>>,
                               err: Option<Error>, saved0: seq<State>, accepted0: seq<nat>)
      reads this, backend
    {
      && Valid() && k >= 1 && j <= n && Covers(moves, start.params)
      && (err.None? ==> WellFormed(state, nwalkers, ndim))
      && Blocks(collaborators, moves, weights, tune, k, start, j)
           == RunOutcome(yielded, masks, Config(state, params, random), err)
      && (err.None? ==> log == Trace(j, k, tune, store))
      && (err.Some? ==> log <= Trace(n, k, tune, store))
      && (store ==> |saved0| + n <= backend.capacity)
      && (store ==> backend.saved == saved0 + yielded && backend.accepted == Tally(accepted0, masks))
      && (!store ==> backend.saved == saved0 && backend.accepted == accepted0)
    }

    /** One pass of the outer loop: outer round j's k proposal rounds and,
        when none raised, the state it yields. */
    method OuterRound(state: State, j: nat, n: nat, k: nat, tune: bool, store: bool,
                      log: seq<Event>, yielded: seq<State>, ghost masks: seq<seq<bool>>,
                      ghost start: Config, ghost saved0: seq<State>, ghost accepted0: seq<nat>)
      returns (next: State, log': seq<Event>, yielded': seq<State>, err: Option<Error>, ghost masks': seq<seq<bool>>)
      requires j < n && Progressed(start, j, n, k, tune, store, state, log, yielded, masks, None, saved0, accepted0)
      modifies this`random, this`params, backend`saved, backend`accepted
      ensures Progressed(start, j + 1, n, k, tune, store, next, log', yielded', masks', err, saved0, accepted0)
    {
      BlocksNext(collaborators, moves, weights, tune, k, start, j, yielded, masks, Config(state, params, random));
      ghost var b := Rounds(collaborators, moves, weights, tune, Config(state, params, random), k);
      var events;
      next, events, err := RunBlock(state, j, k, tune, store);
      if err.Some? {
        PartialRunIsPrefix(n, j, events, k, tune, store);
        log', yielded', masks' := log + events, yielded, masks;
      } else {
        BlockStep(j, k, tune, store);
        TallyNext(accepted0, masks, b.mask);
        log' := log + events + [Yield(RoundNo(j, k - 1, k))];
        yielded', masks' := yielded + [next], masks + [b.mask];
      }
    }

    /** Where the loop of `Run` ends: after all n outer rounds, or at the
        first exception, the run is the whole of `Blocks`. */
    lemma RunEnds(start: Config, j: nat, n: nat, k: nat, tune: bool, store: bool,
                  state: State, log: seq<Event>, yielded: seq<State>, masks: seq<seq<bool>>,
                  err: Option<Error>, saved0: seq<State>, accepted0: seq<nat>)
      requires Progressed(start, j, n, k, tune, store, state, log, yielded, masks, err, saved0, accepted0)
      requires j == n || err.Some?
      ensures var o := Blocks(collaborators, moves, weights, tune, k, start, n);
        && yielded == o.yielded && err == o.err && params == o.cfg.params && random == o.cfg.rng
        && (store ==> backend.accepted == Tally(accepted0, o.masks))
      ensures log <= Trace(n, k, tune, store)
      ensures err.None? ==> log == Trace(n, k, tune, store)
      ensures ProbabilityVector(weights) && NeverRaises(collaborators) ==> err.None?
    {
      if err.Some? {
        BlocksStopped(collaborators, moves, weights, tune, k, start, j, n);
      }
      BlocksFacts(collaborators, moves, weights, tune, k, start, n);
    }

    /** The nested loops of `sample` (ensemble.py): `n` outer rounds of `k`
        proposal rounds each, yielding the state after each outer round and
        stopping at the first exception a collaborator raises. */
    method Run(init: State, n: nat, k: nat, tune: bool, store: bool)
      returns (yielded: seq<State>, log: seq<Event>, err: Option<Error>)
      requires Valid() && WellFormed(init, nwalkers, ndim) && k >= 1
      requires store ==> |backend.saved| + n <= backend.capacity
      modifies this`random, this`params, backend`saved, backend`accepted
      ensures Valid()
      ensures var o := Blocks(collaborators, moves, weights, tune, k, Config(init, old(params), old(random)), n);
        && yielded == o.yielded && err == o.err && params == o.cfg.params && random == o.cfg.rng
        && (store ==> backend.accepted == Tally(old(backend.accepted), o.masks))
      ensures store ==> backend.saved == old(backend.saved) + yielded
      ensures !store ==> backend.saved == old(backend.saved) && backend.accepted == old(backend.accepted)
      ensures log <= Trace(n, k, tune, store)
      ensures err.None? ==> log == Trace(n, k, tune, store)
      ensures ProbabilityVector(weights) && NeverRaises(collaborators) ==> err.None?
    {
      ghost var start, saved0, accepted0 := Config(init, params, random), backend.saved, backend.accepted;
      ghost var masks: seq<seq<bool>> := [];
      var state := init;
      yielded, log, err := [], [], None;
      var j := 0;
      while j < n && err.None?
        invariant Progressed(start, j, n, k, tune, store, state, log, yielded, masks, err, saved0, accepted0)
      {
        state, log, yielded, err, masks := OuterRound(state, j, n, k, tune, store, log, yielded, masks, start, saved0, accepted0);
        j := j + 1;
      }
      RunEnds(start, j, n, k, tune, store, state, log, yielded, masks, err, saved0, accepted0);
    }

    /** What `sample` computes from the sampler's current parameters and
        generator: the shape check, the generator restored from the initial
        state's snapshot, the validated start and the thinning check, then
        the nested loops. */
    function Planned(init: State, iterations: nat, tune: bool, thinBy: int): (r: RunOutcome)
      reads this
      requires |moves| == |weights| && Covers(moves, params) && UnitDraws(collaborators)
      ensures |r.masks| == |r.yielded| <= iterations
      ensures !Shaped(init.coords, nwalkers, ndim) ==>
        r == RunOutcome([], [], Config(init, params, random), Some(IncompatibleDimensions))
      ensures Shaped(init.coords, nwalkers, ndim) ==>
        var p := Prepare(init, evaluator, dtypeGiven, nwalkers, ndim);
        && (p.Err? ==> r == RunOutcome([], [], Config(init, params, Restored(random, init.random)), Some(p.error)))
        && (p.Ok? && thinBy <= 0 ==>
              r == RunOutcome([], [], Config(init, params, Restored(random, init.random)), Some(InvalidThinning)))
        && (p.Ok? && thinBy >= 1 && r.err.Some? ==> FailureCause(collaborators, weights, r.err.value))
        && (p.Ok? && thinBy >= 1 && ProbabilityVector(weights) && NeverRaises(collaborators) ==>
              r.err.None? && |r.yielded| == iterations)
      ensures r.err.None? ==> |r.yielded| == iterations
      ensures !tune ==> r.cfg.params == params
    {
      if !Shaped(init.coords, nwalkers, ndim) then
        RunOutcome([], [], Config(init, params, random), Some(IncompatibleDimensions))
      else
        var rng := Restored(random, init.random);
        match Prepare(init, evaluator, dtypeGiven, nwalkers, ndim)
        case Err(e) => RunOutcome([], [], Config(init, params, rng), Some(e))
        case Ok(start) =>
          if thinBy <= 0 then RunOutcome([], [], Config(init, params, rng), Some(InvalidThinning))
          else
            BlocksFacts(collaborators, moves, weights, tune, thinBy, Config(start, params, rng), iterations);
            Blocks(collaborators, moves, weights, tune, thinBy, Config(start, params, rng), iterations)
    }

    /** `sample(initial_state, iterations, tune, skip_initial_state_check,
        thin_by, store)`: the generator run to exhaustion.  `illConditioned`
        stands for the condition-number test of the initial ensemble, which
        only decides whether to warn. */
    method Sample(init: State, iterations: nat, tune: bool, thinBy: int, store: bool,
                  skipCheck: bool, illConditioned: bool)
      returns (warned: bool, yielded: seq<State>, log: seq<Event>, err: Option<Error>)
      requires Valid()
      modifies this`random, this`params, backend`saved, backend`accepted, backend`capacity
      ensures Valid()
      ensures var o := old(Planned(init, iterations, tune, thinBy));
        && yielded == o.yielded && err == o.err && params == o.cfg.params && random == o.cfg.rng
        && (store ==> backend.accepted == Tally(old(backend.accepted), o.masks))
      ensures store ==> backend.saved == old(backend.saved) + yielded
      ensures !store ==> backend.saved == old(backend.saved) && backend.accepted == old(backend.accepted)
      ensures !Shaped(init.coords, nwalkers, ndim) ==>
        err == Some(IncompatibleDimensions) && random == old(random) && log == [] && yielded == [] && !warned
      ensures Shaped(init.coords, nwalkers, ndim) ==> (warned <==> !skipCheck && illConditioned)
      ensures Shaped(init.coords, nwalkers, ndim) ==>
        var p := Prepare(init, evaluator, dtypeGiven, nwalkers, ndim);
        && (p.Err? ==> err == Some(p.error) && log == [] && yielded == [])
        && (p.Ok? && thinBy <= 0 ==> err == Some(InvalidThinning) && log == [] && yielded == [])
        && (p.Err? || thinBy <= 0 ==> random == Restored(old(random), init.random))
        && (p.Ok? && thinBy >= 1 && ProbabilityVector(weights) && NeverRaises(collaborators) ==> err.None?)
      ensures log != [] ==> thinBy >= 1 && log <= Trace(iterations, thinBy, tune, store)
      ensures err.None? ==> thinBy >= 1 && log == Trace(iterations, thinBy, tune, store) && |yielded| == iterations
      ensures forall q :: 0 <= q < |yielded| ==> WellFormed(yielded[q], nwalkers, ndim) && yielded[q].random.Snapshot?
      ensures err.None? && iterations > 0 ==> yielded[iterations - 1].random == Snapshot(random)
      ensures backend.capacity ==
        if store && Shaped(init.coords, nwalkers, ndim) && Prepare(init, evaluator, dtypeGiven, nwalkers, ndim).Ok? && thinBy >= 1
        then (if old(backend.capacity) >= |old(backend.saved)| + iterations then old(backend.capacity) else |old(backend.saved)| + iterations)
        else old(backend.capacity)
      ensures !tune ==> params == old(params)
    {
      if !Shaped(init.coords, nwalkers, ndim) {
        return false, [], [], Some(IncompatibleDimensions);
      }
      warned := !skipCheck && illConditioned;
      SetRandomState(init.random);
      var start := Prepare(init, evaluator, dtypeGiven, nwalkers, ndim);
      if start.Err? {
        return warned, [], [], Some(start.error);
      }
      if thinBy <= 0 {
        return warned, [], [], Some(InvalidThinning);
      }
      if store {
        backend.Grow(iterations);
      }
      BlocksKeepShape(collaborators, moves, weights, tune, thinBy, Config(start.value, params, random), iterations, nwalkers, ndim);
      yielded, log, err := Run(start.value, iterations, thinBy, tune, store);
    }

    /** `run_mcmc(initial_state, nsteps, ...)`: resume from the remembered
        state when none is given, run the generator to exhaustion and
        remember and return its last yield (None when nsteps is 0). */
    method RunMcmc(init: Option<State>, nsteps: nat, tune: bool, thinBy: int, store: bool,
                   skipCheck: bool, illConditioned: bool)
      returns (r: Result<Option<State>>)
      requires Valid()
      modifies this`random, this`params, this`previousState, backend`saved, backend`accepted, backend`capacity
      ensures Valid()
      ensures StartState(old(previousState), init).Err? ==>
        && r == Err(StartState(old(previousState), init).error)
        && random == old(random) && params == old(params)
        && backend.saved == old(backend.saved) && backend.accepted == old(backend.accepted)
        && backend.capacity == old(backend.capacity)
      ensures StartState(old(previousState), init).Ok? ==>
        var s := StartState(old(previousState), init).value;
        backend.capacity ==
          if store && Shaped(s.coords, nwalkers, ndim) && Prepare(s, evaluator, dtypeGiven, nwalkers, ndim).Ok? && thinBy >= 1
          then (if old(backend.capacity) >= |old(backend.saved)| + nsteps then old(backend.capacity) else |old(backend.saved)| + nsteps)
          else old(backend.capacity)
      ensures StartState(old(previousState), init).Ok? ==>
        var o := old(Planned(StartState(previousState, init).value, nsteps, tune, thinBy));
        && (r.Ok? <==> o.err.None?)
        && (r.Err? ==> r.error == o.err.value)
        && (r.Ok? ==> r.value == Last(o.yielded))
        && random == o.cfg.rng && params == o.cfg.params
        && (store ==> backend.saved == old(backend.saved) + o.yielded
                      && backend.accepted == Tally(old(backend.accepted), o.masks))
      ensures StartState(old(previousState), init).Ok? && ProbabilityVector(weights) && NeverRaises(collaborators)
              && thinBy >= 1 && Shaped(StartState(old(previousState), init).value.coords, nwalkers, ndim)
              && Prepare(StartState(old(previousState), init).value, evaluator, dtypeGiven, nwalkers, ndim).Ok? ==>
        r.Ok?
      ensures init.None? && old(previousState).None? ==> r == Err(NoPreviousState)
      ensures r.Err? ==> previousState == old(previousState)
      ensures r.Ok? ==> previousState == r.value
      ensures r.Ok? ==> (r.value.Some? <==> nsteps > 0)
      ensures r.Ok? && r.value.Some? ==>
        WellFormed(r.value.value, nwalkers, ndim) && r.value.value.random == Snapshot(random)
      ensures r.Ok? && store ==>
        |backend.saved| == |old(backend.saved)| + nsteps &&
        (nsteps > 0 ==> r.value == Some(backend.saved[|backend.saved| - 1]))
      ensures !store ==> backend.saved == old(backend.saved) && backend.accepted == old(backend.accepted)
    {
      var start := StartState(previousState, init);
      if start.Err? {
        return Err(start.error);
      }
      var warned, yielded, log, err := Sample(start.value, nsteps, tune, thinBy, store, skipCheck, illConditioned);
      if err.Some? {
        return Err(err.value);
      }
      var last := if yielded == [] then None else Some(yielded[|yielded| - 1]);
      previousState := last;
      return Ok(last);
    }

    /** `acceptance_fraction`: per walker, the accepted count over the number
        of stored steps (NaN for every walker before the first stored step). */
    function AcceptanceFraction(): (r: seq<Num>)
      reads this, backend
      requires Valid()
      ensures |r| == nwalkers
      ensures backend.Iteration() == 0 ==> forall w :: 0 <= w < |r| ==> r[w].NaN?
      ensures backend.Iteration() > 0 ==> forall w :: 0 <= w < |r| ==>
        r[w].Finite? && 0.0 <= r[w].v <= 1.0 && r[w].v * backend.Iteration() as real == backend.accepted[w] as real
    {
      var n, counts := backend.Iteration(), backend.accepted;
      seq(nwalkers, w requires 0 <= w < nwalkers => Fraction(counts[w], n))
    }
  }
}
