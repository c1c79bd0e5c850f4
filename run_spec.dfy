/** What the sampling loop computes, as pure functions: one proposal round
    (draw a move by weight, propose, stamp, tune), the inner rounds of one
    thinning block, and the outer rounds of a whole run, each stopping at
    the first exception.  The sampler's methods are proved against these. */
module RunSpec {
  import opened Numbers
  import opened Outcomes
  import opened MoveSchedule
  import opened Chain

  /** A move object's own tunable parameters, opaque to the sampler. */
  type Params = seq<real>

  /** What `move.propose(model, state)` does as the sampler sees it: a new
      state with its per-walker acceptance mask, or an exception (such as a
      NaN log-probability at a proposed position).  Either way the private
      generator may have advanced. */
  datatype Proposal =
    | Proposed(next: State, accepted: seq<bool>, rng: Rng)
    | Raised(error: Error, rng: Rng)

  /** The code the sampler calls but does not own: the generator's
      `random_sample()` draw and the moves' `propose`, `tune` and initial
      parameters. */
  datatype Collaborators = Collaborators(
    uniform: Rng -> (real, Rng),
    propose: (Move, Params, State, Rng) -> Proposal,
    tune: (Move, Params, State, seq<bool>) -> Params,
    initialParams: Move -> Params)

  /** `random_sample()` lies in [0, 1). */
  ghost predicate UnitDraws(c: Collaborators)
  {
    forall r :: 0.0 <= c.uniform(r).0 < 1.0
  }

  /** Moves map a well-formed ensemble to a well-formed ensemble of the same
      shape, with one acceptance flag per walker. */
  ghost predicate ProposalsKeepShape(c: Collaborators, nwalkers: nat, ndim: nat)
  {
    forall m, p, s, r ::
      WellFormed(s, nwalkers, ndim) && c.propose(m, p, s, r).Proposed? ==>
        WellFormed(c.propose(m, p, s, r).next, nwalkers, ndim) && |c.propose(m, p, s, r).accepted| == nwalkers
  }

  /** No move ever raises. */
  ghost predicate NeverRaises(c: Collaborators)
  {
    forall m, p, s, r :: c.propose(m, p, s, r).Proposed?
  }

  /** Some proposal raises e. */
  ghost predicate RaisedBy(c: Collaborators, e: Error)
  {
    exists m, p, s, r :: c.propose(m, p, s, r).Raised? && c.propose(m, p, s, r).error == e
  }

  /** Why a round can fail: the weights are not a distribution (and then
      nothing was drawn), or a move raised. */
  ghost predicate FailureCause(c: Collaborators, weights: seq<Num>, e: Error)
  {
    (!ProbabilityVector(weights) && e == InvalidProbabilities) || (ProbabilityVector(weights) && RaisedBy(c, e))
  }

  /** Every move of the schedule has parameters. */
  predicate Covers(moves: seq<Move>, params: map<Move, Params>)
  {
    forall m :: m in moves ==> m in params
  }

  datatype StepOutcome =
    | Stepped(next: State, mask: seq<bool>, move: Move, rng: Rng)
    | Failed(error: Error, rng: Rng)

  /** One proposal without its bookkeeping: validate the weights (nothing is
      drawn when they are not a distribution), draw a move by weight, let it
      propose from `state`, and stamp the new state with the generator state
      after the proposal. */
  function Step(c: Collaborators, moves: seq<Move>, weights: seq<Num>, params: map<Move, Params>,
                state: State, rng: Rng): (r: StepOutcome)
    requires |moves| == |weights| && Covers(moves, params) && UnitDraws(c)
    ensures r.Stepped? ==> r.move in moves
  {
    if !ProbabilityVector(weights) then Failed(InvalidProbabilities, rng)
    else
      var draw := c.uniform(rng);
      var i := Pick(weights, draw.0);
      var m := moves[i];
      match c.propose(m, params[m], state, draw.1)
      case Raised(e, q) => Failed(e, q)
      case Proposed(s, mask, q) => Stepped(s.(random := Snapshot(q)), mask, m, q)
  }

  /** What a step promises: invalid weights fail with nothing drawn, moves
      that never raise always step, a failure has one of the two causes and
      is the exception of the drawn move's own proposal, a success carries
      that proposal's mask and generator state and is stamped with the
      latter, and the move drawn is one of positive weight. */
  lemma StepFacts(c: Collaborators, moves: seq<Move>, weights: seq<Num>, params: map<Move, Params>,
                  state: State, rng: Rng)
    requires |moves| == |weights| && Covers(moves, params) && UnitDraws(c)
    ensures var r := Step(c, moves, weights, params, state, rng);
      && (!ProbabilityVector(weights) ==> r == Failed(InvalidProbabilities, rng))
      && (ProbabilityVector(weights) && NeverRaises(c) ==> r.Stepped?)
      && (r.Failed? ==> FailureCause(c, weights, r.error))
      && (r.Stepped? ==> r.next.random == Snapshot(r.rng))
      && (r.Stepped? ==> exists i :: 0 <= i < |moves| && moves[i] == r.move && weights[i].v > 0.0)
    ensures ProbabilityVector(weights) ==>
      var r := Step(c, moves, weights, params, state, rng);
      var d := c.uniform(rng);
      var m := moves[Pick(weights, d.0)];
      var q := c.propose(m, params[m], state, d.1);
      && (r.Failed? ==> q == Raised(r.error, r.rng))
      && (r.Stepped? ==> r.move == m && q.Proposed? && r.mask == q.accepted && r.rng == q.rng)
  {
    if ProbabilityVector(weights) {
      var draw := c.uniform(rng);
      var i := Pick(weights, draw.0);
      var m := moves[i];
      if c.propose(m, params[m], state, draw.1).Raised? {
        assert RaisedBy(c, c.propose(m, params[m], state, draw.1).error);
      }
    }
  }

  /** A step from a well-formed ensemble gives a well-formed ensemble and one
      acceptance flag per walker. */
  lemma StepKeepsShape(c: Collaborators, moves: seq<Move>, weights: seq<Num>, params: map<Move, Params>,
                       state: State, rng: Rng, nwalkers: nat, ndim: nat)
    requires |moves| == |weights| && Covers(moves, params) && UnitDraws(c)
    requires WellFormed(state, nwalkers, ndim) && ProposalsKeepShape(c, nwalkers, ndim)
    requires Step(c, moves, weights, params, state, rng).Stepped?
    ensures WellFormed(Step(c, moves, weights, params, state, rng).next, nwalkers, ndim)
    ensures |Step(c, moves, weights, params, state, rng).mask| == nwalkers
  {
    var draw := c.uniform(rng);
    var m := moves[Pick(weights, draw.0)];
    assert c.propose(m, params[m], state, draw.1).Proposed?;
  }

  /** The loop's variables between rounds: the current ensemble, the moves'
      parameters and the private generator. */
  datatype Config = Config(state: State, params: map<Move, Params>, rng: Rng)

  /** A configuration reached, the exception that stopped the loop (if any),
      and the acceptance mask of the last round made. */
  datatype Progress = Progress(cfg: Config, err: Option<Error>, mask: seq<bool>)

  /** One round of the loop: a step, then the drawn move's tuning when
      `tune` is set.  A failed step keeps the ensemble and the parameters;
      the generator keeps whatever the step did to it. */
  function Advance(c: Collaborators, moves: seq<Move>, weights: seq<Num>, tune: bool, cfg: Config): (r: Progress)
    requires |moves| == |weights| && Covers(moves, cfg.params) && UnitDraws(c)
    ensures Covers(moves, r.cfg.params)
  {
    match Step(c, moves, weights, cfg.params, cfg.state, cfg.rng)
    case Failed(e, q) => Progress(cfg.(rng := q), Some(e), [])
    case Stepped(next, mask, m, q) =>
      var params := if tune then cfg.params[m := c.tune(m, cfg.params[m], next, mask)] else cfg.params;
      Progress(Config(next, params, q), None, mask)
  }

  /** What a round promises: tuning alone changes the parameters, a failed
      round keeps the ensemble and the parameters, invalid weights fail with
      the configuration untouched, moves that never raise always complete
      the round, a failure has one of the two causes, and a completed round
      ends on an ensemble stamped with the generator state. */
  lemma AdvanceFacts(c: Collaborators, moves: seq<Move>, weights: seq<Num>, tune: bool, cfg: Config)
    requires |moves| == |weights| && Covers(moves, cfg.params) && UnitDraws(c)
    ensures var r := Advance(c, moves, weights, tune, cfg);
      && (!tune ==> r.cfg.params == cfg.params)
      && (r.err.Some? ==> r.cfg.state == cfg.state && r.cfg.params == cfg.params)
      && (!ProbabilityVector(weights) ==> r == Progress(cfg, Some(InvalidProbabilities), []))
      && (ProbabilityVector(weights) && NeverRaises(c) ==> r.err.None?)
      && (r.err.Some? ==> FailureCause(c, weights, r.err.value))
      && (r.err.None? ==> r.cfg.state.random == Snapshot(r.cfg.rng))
  {
    StepFacts(c, moves, weights, cfg.params, cfg.state, cfg.rng);
  }

  /** The first t rounds of a thinning block, stopping at the first failure. */
  function Rounds(c: Collaborators, moves: seq<Move>, weights: seq<Num>, tune: bool, cfg: Config, t: nat): (r: Progress)
    requires |moves| == |weights| && Covers(moves, cfg.params) && UnitDraws(c)
    ensures Covers(moves, r.cfg.params)
  {
    if t == 0 then Progress(cfg, None, [])
    else
      var prev := Rounds(c, moves, weights, tune, cfg, t - 1);
      if prev.err.Some? then prev else Advance(c, moves, weights, tune, prev.cfg)
  }

  /** What a block of rounds promises: tuning alone changes the parameters,
      invalid weights fail the first round before anything is drawn, moves
      that never raise give a complete block, a failure has one of the two
      causes, and a complete block ends on a stamped ensemble. */
  lemma {:induction false} RoundsFacts(c: Collaborators, moves: seq<Move>, weights: seq<Num>, tune: bool, cfg: Config, t: nat)
    requires |moves| == |weights| && Covers(moves, cfg.params) && UnitDraws(c)
    ensures var r := Rounds(c, moves, weights, tune, cfg, t);
      && (!tune ==> r.cfg.params == cfg.params)
      && (!ProbabilityVector(weights) && t > 0 ==> r == Progress(cfg, Some(InvalidProbabilities), []))
      && (ProbabilityVector(weights) && NeverRaises(c) ==> r.err.None?)
      && (r.err.Some? ==> FailureCause(c, weights, r.err.value))
      && (r.err.None? && t > 0 ==> r.cfg.state.random == Snapshot(r.cfg.rng))
  {
    if t > 0 {
      RoundsFacts(c, moves, weights, tune, cfg, t - 1);
      var prev := Rounds(c, moves, weights, tune, cfg, t - 1);
      if prev.err.None? {
        AdvanceFacts(c, moves, weights, tune, prev.cfg);
      }
    }
  }

  /** Once a block has failed, further rounds change nothing. */
  lemma {:induction false} RoundsStopped(c: Collaborators, moves: seq<Move>, weights: seq<Num>, tune: bool,
                                         cfg: Config, t: nat, u: nat)
    requires |moves| == |weights| && Covers(moves, cfg.params) && UnitDraws(c)
    requires t <= u && Rounds(c, moves, weights, tune, cfg, t).err.Some?
    ensures Rounds(c, moves, weights, tune, cfg, u) == Rounds(c, moves, weights, tune, cfg, t)
    decreases u - t
  {
    if t < u {
      RoundsStopped(c, moves, weights, tune, cfg, t, u - 1);
    }
  }

  /** Rounds from a well-formed ensemble stay well-formed, and a round made
      records one acceptance flag per walker. */
  lemma {:induction false} RoundsKeepShape(c: Collaborators, moves: seq<Move>, weights: seq<Num>, tune: bool,
                                           cfg: Config, t: nat, nwalkers: nat, ndim: nat)
    requires |moves| == |weights| && Covers(moves, cfg.params) && UnitDraws(c)
    requires WellFormed(cfg.state, nwalkers, ndim) && ProposalsKeepShape(c, nwalkers, ndim)
    ensures WellFormed(Rounds(c, moves, weights, tune, cfg, t).cfg.state, nwalkers, ndim)
    ensures t > 0 && Rounds(c, moves, weights, tune, cfg, t).err.None? ==>
      |Rounds(c, moves, weights, tune, cfg, t).mask| == nwalkers
  {
    if t > 0 {
      RoundsKeepShape(c, moves, weights, tune, cfg, t - 1, nwalkers, ndim);
      var prev := Rounds(c, moves, weights, tune, cfg, t - 1);
      if prev.err.None? {
        var st := prev.cfg;
        if Step(c, moves, weights, st.params, st.state, st.rng).Stepped? {
          StepKeepsShape(c, moves, weights, st.params, st.state, st.rng, nwalkers, ndim);
        }
      }
    }
  }

  /** The yielded ensembles of a run, the acceptance masks of the stored
      rounds, the final configuration and the exception that ended it. */
  datatype RunOutcome = RunOutcome(yielded: seq<State>, masks: seq<seq<bool>>, cfg: Config, err: Option<Error>)

  /** n outer rounds of k inner rounds each: after every complete block the
      current ensemble is yielded, and its last round's mask is the one a
      store would record. */
  function Blocks(c: Collaborators, moves: seq<Move>, weights: seq<Num>, tune: bool, k: nat, cfg: Config, n: nat): (r: RunOutcome)
    requires |moves| == |weights| && Covers(moves, cfg.params) && UnitDraws(c)
    ensures Covers(moves, r.cfg.params)
    ensures |r.masks| == |r.yielded| <= n
    ensures r.err.None? ==> |r.yielded| == n
  {
    if n == 0 then RunOutcome([], [], cfg, None)
    else
      var prev := Blocks(c, moves, weights, tune, k, cfg, n - 1);
      if prev.err.Some? then prev
      else
        var b := Rounds(c, moves, weights, tune, prev.cfg, k);
        if b.err.Some? then RunOutcome(prev.yielded, prev.masks, b.cfg, b.err)
        else RunOutcome(prev.yielded + [b.cfg.state], prev.masks + [b.mask], b.cfg, None)
  }

  /** What a run promises: tuning alone changes the parameters; moves that
      never raise give a complete run; a failure has one of the two causes;
      and invalid weights fail before the first yield with the start
      configuration untouched. */
  lemma {:induction false} BlocksFacts(c: Collaborators, moves: seq<Move>, weights: seq<Num>, tune: bool, k: nat,
                                       cfg: Config, n: nat)
    requires |moves| == |weights| && Covers(moves, cfg.params) && UnitDraws(c)
    ensures var r := Blocks(c, moves, weights, tune, k, cfg, n);
      && (!tune ==> r.cfg.params == cfg.params)
      && (ProbabilityVector(weights) && NeverRaises(c) ==> r.err.None?)
      && (r.err.Some? ==> FailureCause(c, weights, r.err.value))
      && (!ProbabilityVector(weights) && n > 0 && k > 0 ==> r == RunOutcome([], [], cfg, Some(InvalidProbabilities)))
  {
    if n > 0 {
      BlocksFacts(c, moves, weights, tune, k, cfg, n - 1);
      var prev := Blocks(c, moves, weights, tune, k, cfg, n - 1);
      if prev.err.None? {
        RoundsFacts(c, moves, weights, tune, prev.cfg, k);
      }
    }
  }

  /** From a run of j outer rounds that has not failed, round j + 1 runs one
      more block from where it stopped. */
  lemma BlocksNext(c: Collaborators, moves: seq<Move>, weights: seq<Num>, tune: bool, k: nat,
                   cfg: Config, j: nat, yielded: seq<State>, masks: seq<seq<bool>>, reached: Config)
    requires |moves| == |weights| && Covers(moves, cfg.params) && UnitDraws(c)
    requires Blocks(c, moves, weights, tune, k, cfg, j) == RunOutcome(yielded, masks, reached, None)
    ensures Covers(moves, reached.params)
    ensures var b := Rounds(c, moves, weights, tune, reached, k);
      Blocks(c, moves, weights, tune, k, cfg, j + 1)
        == if b.err.Some? then RunOutcome(yielded, masks, b.cfg, b.err)
           else RunOutcome(yielded + [b.cfg.state], masks + [b.mask], b.cfg, None)
  {
  }

  /** A run from a well-formed ensemble yields only well-formed ensembles,
      each stamped with a generator snapshot, and records one acceptance
      flag per walker for each; after a complete run the last yield is the
      final ensemble, stamped with the final generator state. */
  lemma {:induction false} BlocksKeepShape(c: Collaborators, moves: seq<Move>, weights: seq<Num>, tune: bool, k: nat,
                                           cfg: Config, n: nat, nwalkers: nat, ndim: nat)
    requires |moves| == |weights| && Covers(moves, cfg.params) && UnitDraws(c)
    requires WellFormed(cfg.state, nwalkers, ndim) && ProposalsKeepShape(c, nwalkers, ndim)
    ensures var r := Blocks(c, moves, weights, tune, k, cfg, n);
      && WellFormed(r.cfg.state, nwalkers, ndim)
      && (forall q :: 0 <= q < |r.yielded| ==> WellFormed(r.yielded[q], nwalkers, ndim))
      && (k > 0 ==> forall q :: 0 <= q < |r.yielded| ==> r.yielded[q].random.Snapshot? && |r.masks[q]| == nwalkers)
      && (r.err.None? && n > 0 && k > 0 ==> r.yielded[n - 1] == r.cfg.state && r.cfg.state.random == Snapshot(r.cfg.rng))
    decreases n
  {
    if n > 0 {
      BlocksKeepShape(c, moves, weights, tune, k, cfg, n - 1, nwalkers, ndim);
      var prev := Blocks(c, moves, weights, tune, k, cfg, n - 1);
      if prev.err.None? {
        var b := Rounds(c, moves, weights, tune, prev.cfg, k);
        RoundsKeepShape(c, moves, weights, tune, prev.cfg, k, nwalkers, ndim);
        RoundsFacts(c, moves, weights, tune, prev.cfg, k);
        if b.err.None? {
          AppendShaped(prev.yielded, prev.masks, b.cfg.state, b.mask, k, nwalkers, ndim);
        }
      }
    }
  }

  /** One more yielded ensemble of the right shape keeps every yielded
      ensemble of the right shape. */
  lemma AppendShaped(ys: seq<State>, ms: seq<seq<bool>>, y: State, m: seq<bool>, k: nat, nwalkers: nat, ndim: nat)
    requires |ys| == |ms|
    requires forall q :: 0 <= q < |ys| ==> WellFormed(ys[q], nwalkers, ndim)
    requires k > 0 ==> forall q :: 0 <= q < |ys| ==> ys[q].random.Snapshot? && |ms[q]| == nwalkers
    requires WellFormed(y, nwalkers, ndim) && (k > 0 ==> y.random.Snapshot? && |m| == nwalkers)
    ensures forall q :: 0 <= q < |ys + [y]| ==> WellFormed((ys + [y])[q], nwalkers, ndim)
    ensures k > 0 ==> forall q :: 0 <= q < |ys + [y]| ==> (ys + [y])[q].random.Snapshot? && |(ms + [m])[q]| == nwalkers
  {
  }

  /** Once a run has failed, further outer rounds change nothing. */
  lemma {:induction false} BlocksStopped(c: Collaborators, moves: seq<Move>, weights: seq<Num>, tune: bool, k: nat,
                                         cfg: Config, j: nat, n: nat)
    requires |moves| == |weights| && Covers(moves, cfg.params) && UnitDraws(c)
    requires j <= n && Blocks(c, moves, weights, tune, k, cfg, j).err.Some?
    ensures Blocks(c, moves, weights, tune, k, cfg, n) == Blocks(c, moves, weights, tune, k, cfg, j)
    decreases n - j
  {
    if j < n {
      BlocksStopped(c, moves, weights, tune, k, cfg, j, n - 1);
    }
  }
}
