/** The move schedule of the sampler: parsing the `moves` argument into
    moves and normalised weights, and the weighted draw of one move per
    proposal round (the draw numpy's `RandomState.choice(a, p=weights)`
    makes from one uniform variate). */
module MoveSchedule {
  import opened Numbers
  import opened Outcomes

  /** A move object.  `Stretch` is the built-in default move; equal values
      stand for the same object. */
  datatype Move = Stretch | Custom(id: nat)

  /** One element of a list passed as `moves`. */
  datatype MoveItem = Bare(move: Move) | Pair(move: Move, weight: real)

  /** The `moves` argument of the constructor. */
  datatype MovesArg = NoMoves | OneMove(move: Move) | MoveList(items: seq<MoveItem>)

  /** The parsed schedule: the moves and one weight per move. */
  datatype Schedule = Schedule(moves: seq<Move>, weights: seq<Num>)

  predicate AllPairs(items: seq<MoveItem>)
  {
    forall i :: 0 <= i < |items| ==> items[i].Pair?
  }

  predicate AllBare(items: seq<MoveItem>)
  {
    forall i :: 0 <= i < |items| ==> items[i].Bare?
  }

  function MovesOf(items: seq<MoveItem>): seq<Move>
  {
    seq(|items|, i requires 0 <= i < |items| => items[i].move)
  }

  function WeightsOf(items: seq<MoveItem>): seq<real>
    requires AllPairs(items)
  {
    seq(|items|, i requires 0 <= i < |items| => items[i].weight)
  }

  function Ones(n: nat): seq<real>
  {
    seq(n, _ => 1.0)
  }

  /** `weights /= sum(weights)` in floating point: each weight divided by the total. */
  function Normalize(ws: seq<real>): seq<Num>
  {
    seq(|ws|, i requires 0 <= i < |ws| => Divide(ws[i], Sum(ws)))
  }

  /** The moves and the weights before normalisation.  A list whose
      elements are all pairs is unzipped; a list of bare moves gets weight
      1 each; an empty list has nothing to unpack. */
  function RawSchedule(arg: MovesArg): Result<(seq<Move>, seq<real>)>
  {
    match arg
    case NoMoves => Ok(([Stretch], [1.0]))
    case OneMove(m) => Ok(([m], [1.0]))
    case MoveList(items) =>
      if |items| == 0 then Err(EmptyMoveList)
      else if AllPairs(items) then Ok((MovesOf(items), WeightsOf(items)))
      else if AllBare(items) then Ok((MovesOf(items), Ones(|items|)))
      else Err(MixedMoveList)
  }

  /** The constructor's move-schedule parsing, weights normalised. */
  function ParseMoves(arg: MovesArg): (r: Result<Schedule>)
    ensures r.Ok? ==> |r.value.moves| == |r.value.weights| >= 1
    ensures r.Err? <==> arg.MoveList? && (|arg.items| == 0 || (!AllPairs(arg.items) && !AllBare(arg.items)))
    ensures r.Err? ==> r.error == (if |arg.items| == 0 then EmptyMoveList else MixedMoveList)
    ensures arg.NoMoves? ==> r == Ok(Schedule([Stretch], [Finite(1.0)]))
    ensures arg.OneMove? ==> r == Ok(Schedule([arg.move], [Finite(1.0)]))
    ensures r.Ok? && arg.MoveList? ==> r.value.moves == MovesOf(arg.items)
  {
    match RawSchedule(arg)
    case Err(e) => Err(e)
    case Ok((ms, ws)) =>
      assert arg.NoMoves? || arg.OneMove? ==> Normalize(ws) == [Finite(1.0)] by {
        if arg.NoMoves? || arg.OneMove? {
          assert ws[..0] == [];
          assert Sum(ws) == 1.0;
          assert Normalize(ws)[0] == Divide(1.0, 1.0);
        }
      }
      Ok(Schedule(ms, Normalize(ws)))
  }

  // ---------------------------------------------------------------------
  // Properties of the normalisation

  function Scaled(ws: seq<real>, c: real): (r: seq<real>)
    requires c != 0.0
    ensures |r| == |ws|
  {
    seq(|ws|, i requires 0 <= i < |ws| => ws[i] / c)
  }

  lemma {:induction false} SumScaled(ws: seq<real>, c: real)
    requires c != 0.0
    ensures Sum(Scaled(ws, c)) == Sum(ws) / c
    decreases |ws|
  {
    if ws != [] {
      var n := |ws| - 1;
      assert Scaled(ws, c)[..n] == Scaled(ws[..n], c);
      SumScaled(ws[..n], c);
    }
  }

  lemma {:induction false} SumOnes(n: nat)
    ensures Sum(Ones(n)) == n as real
  {
    if n > 0 {
      assert Ones(n)[..n - 1] == Ones(n - 1);
      SumOnes(n - 1);
    }
  }

  lemma NormalizedValues(ws: seq<real>)
    requires Sum(ws) != 0.0
    ensures forall i :: 0 <= i < |ws| ==> Normalize(ws)[i].Finite?
    ensures Values(Normalize(ws)) == Scaled(ws, Sum(ws))
  {
    var w := Normalize(ws);
    var t := Sum(ws);
    forall i | 0 <= i < |ws| ensures w[i] == Finite(ws[i] / t) {
    }
    var vs := Values(w);
    forall i | 0 <= i < |ws| ensures vs[i] == Scaled(ws, t)[i] {
    }
  }

  lemma DivideSelf(t: real)
    requires t != 0.0
    ensures t / t == 1.0
  {
  }

  /** Normalised weights of a non-zero total are finite and sum to one. */
  lemma NormalizedSumsToOne(ws: seq<real>)
    requires Sum(ws) != 0.0
    ensures forall i :: 0 <= i < |ws| ==> Normalize(ws)[i].Finite?
    ensures Sum(Values(Normalize(ws))) == 1.0
  {
    var t := Sum(ws);
    NormalizedValues(ws);
    SumScaled(ws, t);
    DivideSelf(t);
  }

  /** A zero total makes every normalised weight infinite or NaN. */
  lemma ZeroTotalIsNotFinite(ws: seq<real>)
    requires Sum(ws) == 0.0
    ensures forall i :: 0 <= i < |ws| ==> !Normalize(ws)[i].Finite?
  {
  }

  /** Non-negative raw weights with a positive total give a probability vector. */
  lemma NormalizedIsDistribution(ws: seq<real>)
    requires forall i :: 0 <= i < |ws| ==> ws[i] >= 0.0
    requires Sum(ws) > 0.0
    ensures ProbabilityVector(Normalize(ws))
  {
    NormalizedSumsToOne(ws);
  }

  /** Every move gets its own weight divided by the total. */
  lemma ParsedWeightsProportional(arg: MovesArg, i: nat)
    requires RawSchedule(arg).Ok?
    requires Sum(RawSchedule(arg).value.1) != 0.0
    requires i < |RawSchedule(arg).value.1|
    ensures ParseMoves(arg).value.weights[i]
         == Finite(RawSchedule(arg).value.1[i] / Sum(RawSchedule(arg).value.1))
  {
  }

  /** Parsed weights sum to one whenever the raw weights do not sum to zero;
      the schedules that do not come from a weighted list always qualify. */
  lemma {:induction false} ParsedWeightsSumToOne(arg: MovesArg)
    requires ParseMoves(arg).Ok?
    requires arg.MoveList? && AllPairs(arg.items) ==> Sum(WeightsOf(arg.items)) != 0.0
    ensures forall i :: 0 <= i < |ParseMoves(arg).value.weights| ==> ParseMoves(arg).value.weights[i].Finite?
    ensures Sum(Values(ParseMoves(arg).value.weights)) == 1.0
  {
    var ws := RawSchedule(arg).value.1;
    match arg
    case NoMoves => assert ws[..0] == [];
    case OneMove(_) => assert ws[..0] == [];
    case MoveList(items) =>
      if !AllPairs(items) {
        SumOnes(|items|);
      }
    NormalizedSumsToOne(ws);
  }

  /** An unweighted list of n moves gives each move weight 1/n. */
  lemma EqualWeights(items: seq<MoveItem>, i: nat)
    requires |items| > 0 && AllBare(items) && i < |items|
    ensures ParseMoves(MoveList(items)).value.weights[i] == Finite(1.0 / |items| as real)
  {
    assert !AllPairs(items) by { assert items[0].Bare?; }
    SumOnes(|items|);
  }

  // ---------------------------------------------------------------------
  // The weighted draw

  /** The tolerance numpy allows on the sum of `p` (the square root of the
      double-precision machine epsilon). */
  const Tolerance: real := 0.000000014901161193847656

  /** What `choice` accepts as `p`: no NaN, no negative entry, total within
      the tolerance of one (an infinite entry fails the last test). */
  predicate ProbabilityVector(w: seq<Num>)
  {
    && (forall i :: 0 <= i < |w| ==> w[i].Finite? && w[i].v >= 0.0)
    && 1.0 - Tolerance <= Sum(Values(w)) <= 1.0 + Tolerance
  }

  /** The cumulative distribution, divided by its last entry. */
  function Cdf(vals: seq<real>): (c: seq<real>)
    requires Sum(vals) != 0.0
    ensures |c| == |vals|
  {
    seq(|vals|, j requires 0 <= j < |vals| => Sum(vals[..j + 1]) / Sum(vals))
  }

  /** `searchsorted(cdf, u, side='right')` on a sorted cdf: the number of
      leading entries not above u. */
  function SearchRight(c: seq<real>, u: real): (r: nat)
    ensures r <= |c|
    ensures forall j :: 0 <= j < r ==> c[j] <= u
    ensures r < |c| ==> c[r] > u
  {
    if c == [] || c[0] > u then 0 else 1 + SearchRight(c[1..], u)
  }

  /** The index drawn by `choice(moves, p=w)` for the uniform variate u:
      the move whose cumulative-weight interval holds u.  A move of weight
      zero is never drawn. */
  function Pick(w: seq<Num>, u: real): (r: nat)
    requires ProbabilityVector(w)
    requires 0.0 <= u < 1.0
    ensures r < |w|
    ensures w[r].v > 0.0
    ensures Sum(Values(w)[..r]) / Sum(Values(w)) <= u < Sum(Values(w)[..r + 1]) / Sum(Values(w))
  {
    var vals := Values(w);
    var r := SearchRight(Cdf(vals), u);
    PickedInRange(vals, u);
    PickedInterval(vals, u, r);
    PickedPositive(vals, u, r);
    r
  }

  lemma PickedInRange(vals: seq<real>, u: real)
    requires Sum(vals) > 0.0
    requires u < 1.0
    ensures SearchRight(Cdf(vals), u) < |vals|
  {
    var s := Sum(vals);
    var c := Cdf(vals);
    assert |vals| > 0;
    assert vals[..|vals|] == vals;
    assert c[|vals| - 1] == s / s;
    assert s / s == 1.0;
  }

  lemma PickedInterval(vals: seq<real>, u: real, r: nat)
    requires Sum(vals) > 0.0
    requires 0.0 <= u
    requires r < |vals| && r == SearchRight(Cdf(vals), u)
    ensures Sum(vals[..r]) / Sum(vals) <= u < Sum(vals[..r + 1]) / Sum(vals)
  {
    var c := Cdf(vals);
    assert c[r] == Sum(vals[..r + 1]) / Sum(vals);
    if r == 0 {
      assert vals[..0] == [];
    } else {
      assert c[r - 1] == Sum(vals[..r]) / Sum(vals);
    }
  }

  /** The picked move's weight is positive: its cumulative interval is not empty. */
  lemma PickedPositive(vals: seq<real>, u: real, r: nat)
    requires Sum(vals) > 0.0
    requires 0.0 <= u
    requires r < |vals| && r == SearchRight(Cdf(vals), u)
    ensures vals[r] > 0.0
  {
    var s := Sum(vals);
    PickedInterval(vals, u, r);
    assert Sum(vals[..r]) < Sum(vals[..r + 1]) by {
      DivideOrder(Sum(vals[..r]), Sum(vals[..r + 1]), s);
    }
    assert vals[..r + 1] == vals[..r] + [vals[r]];
    SumAppend(vals[..r], [vals[r]]);
    assert Sum([vals[r]]) == vals[r] by { assert [vals[r]][..0] == []; }
  }

  lemma DivideOrder(a: real, b: real, s: real)
    requires s > 0.0 && a / s < b / s
    ensures a < b
  {
    assert a == (a / s) * s && b == (b / s) * s;
  }
}
