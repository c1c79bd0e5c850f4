/** The log-probability evaluation pipeline of the sampler
    (`EnsembleSampler.compute_log_prob`): input guards, evaluation per
    walker or in one batch, structural unpacking of the results into
    log-probabilities and blobs, the squeeze of the blob array's singleton
    axes, and the output guard.  Blobs are modelled by their array shape
    only. */
module LogProb {
  import opened Numbers
  import opened Outcomes

  /** One row of coordinates per walker. */
  type Coords = seq<seq<Num>>

  /** The shape of the array made of a tuple's remaining elements: the
      remainder `l[1:]` is always a sequence, so the array has at least one
      axis, whose size is the number of extra elements. */
  type RestShape = s: seq<nat> | |s| >= 1 witness [0]

  /** What one evaluation returns: a bare log-probability, or a tuple
      `(lp, *blob)` whose remaining elements form an array of shape `rest`. */
  datatype EvalResult = Scalar(lp: Num) | Tuple(lp: Num, rest: RestShape)

  /** The user's function: called once per walker and mapped in walker
      order, or (vectorize=True) called once on the whole batch. */
  datatype Evaluator =
    | PerWalker(f: seq<Num> -> EvalResult)
    | Vectorized(g: Coords -> seq<EvalResult>)

  /** The pair `(log_prob, blob)`; `blobs` is the shape of the blob array
      or None when the function returned bare scalars. */
  datatype Evaluation = Evaluation(logProb: seq<Num>, blobs: Option<seq<nat>>)

  predicate AllFinite(p: Coords)
  {
    forall i, j :: 0 <= i < |p| && 0 <= j < |p[i]| ==> p[i][j].Finite?
  }

  predicate HasInf(p: Coords)
  {
    exists i, j :: 0 <= i < |p| && 0 <= j < |p[i]| && p[i][j].IsInf()
  }

  predicate HasNaN(p: Coords)
  {
    exists i, j :: 0 <= i < |p| && 0 <= j < |p[i]| && p[i][j].IsNaN()
  }

  predicate AnyNaN(lps: seq<Num>)
  {
    exists i :: 0 <= i < |lps| && lps[i].NaN?
  }

  /** The input guards: an infinite coordinate is reported first, then a
      NaN one; either way the evaluator is not called. */
  function CheckParameters(p: Coords): (r: Option<Error>)
    ensures r.None? <==> AllFinite(p)
    ensures HasInf(p) ==> r == Some(InfiniteParameter)
    ensures !HasInf(p) && HasNaN(p) ==> r == Some(NaNParameter)
  {
    if HasInf(p) then Some(InfiniteParameter)
    else if HasNaN(p) then Some(NaNParameter)
    else None
  }

  /** The list of results: per walker, in walker order, or one batch call. */
  function ResultsOf(ev: Evaluator, p: Coords): seq<EvalResult>
  {
    match ev
    case PerWalker(f) => seq(|p|, i requires 0 <= i < |p| => f(p[i]))
    case Vectorized(g) => g(p)
  }

  function LogProbs(results: seq<EvalResult>): (r: seq<Num>)
    ensures |r| == |results|
  {
    seq(|results|, i requires 0 <= i < |results| => results[i].lp)
  }

  predicate AllTuples(results: seq<EvalResult>)
  {
    forall i :: 0 <= i < |results| ==> results[i].Tuple?
  }

  predicate AllScalars(results: seq<EvalResult>)
  {
    forall i :: 0 <= i < |results| ==> results[i].Scalar?
  }

  // ---------------------------------------------------------------------
  // The squeeze of singleton axes

  function Product(s: seq<nat>): nat
  {
    if s == [] then 1 else s[0] * Product(s[1..])
  }

  /** a can be obtained from b by deleting elements. */
  predicate IsSubsequence(a: seq<nat>, b: seq<nat>)
  {
    if a == [] then true
    else if b == [] then false
    else if a[0] == b[0] then IsSubsequence(a[1..], b[1..])
    else IsSubsequence(a, b[1..])
  }

  /** The axis sizes that remain once every axis of size 1 is removed. */
  function DropOnes(s: seq<nat>): (r: seq<nat>)
    ensures forall k :: 0 <= k < |r| ==> r[k] != 1
    ensures Product(r) == Product(s)
    ensures IsSubsequence(r, s)
  {
    if s == [] then []
    else
      var rest := DropOnes(s[1..]);
      assert s == [s[0]] + s[1..];
      if s[0] == 1 then rest
      else
        assert ([s[0]] + rest)[1..] == rest;
        [s[0]] + rest
  }

  /** Every axis size other than 1 survives as often as it occurs. */
  lemma {:induction false} DropOnesCounts(s: seq<nat>)
    ensures |DropOnes(s)| == |s| - multiset(s)[1]
    ensures forall v :: v != 1 ==> multiset(DropOnes(s))[v] == multiset(s)[v]
  {
    if s != [] {
      DropOnesCounts(s[1..]);
      assert s == [s[0]] + s[1..];
      assert multiset(s) == multiset{s[0]} + multiset(s[1..]);
      if s[0] != 1 {
        assert multiset(DropOnes(s)) == multiset{s[0]} + multiset(DropOnes(s[1..]));
      }
    }
  }

  /** The shape of the blob array after `np.squeeze` of every axis of size
      1 except axis 0, the walker axis. */
  function Squeeze(shape: seq<nat>): (r: seq<nat>)
    requires |shape| >= 1
    ensures |r| >= 1 && r[0] == shape[0]
    ensures forall k :: 1 <= k < |r| ==> r[k] != 1
    ensures |r| == |shape| - multiset(shape[1..])[1]
    ensures forall v :: v != 1 ==> multiset(r[1..])[v] == multiset(shape[1..])[v]
    ensures Product(r) == Product(shape)
    ensures IsSubsequence(r[1..], shape[1..])
  {
    var tail := DropOnes(shape[1..]);
    DropOnesCounts(shape[1..]);
    assert ([shape[0]] + tail)[1..] == tail;
    [shape[0]] + tail
  }

  lemma {:induction false} DropOnesKeepsOnesFree(s: seq<nat>)
    requires forall k :: 0 <= k < |s| ==> s[k] != 1
    ensures DropOnes(s) == s
  {
    if s != [] {
      DropOnesKeepsOnesFree(s[1..]);
      assert s == [s[0]] + s[1..];
    }
  }

  /** Squeezing twice is squeezing once. */
  lemma SqueezeIdempotent(shape: seq<nat>)
    requires |shape| >= 1
    ensures Squeeze(Squeeze(shape)) == Squeeze(shape)
  {
    var r := Squeeze(shape);
    DropOnesKeepsOnesFree(r[1..]);
    assert r == [r[0]] + r[1..];
  }

  // ---------------------------------------------------------------------
  // Unpacking

  function Rests(results: seq<EvalResult>): (r: seq<seq<nat>>)
    requires AllTuples(results)
    ensures |r| == |results|
  {
    seq(|results|, i requires 0 <= i < |results| => results[i].rest)
  }

  /** The shape of `np.array(blob, dtype=dt)` after the squeeze.  With no
      walkers there is no first blob to infer a dtype from. */
  function BlobShape(rests: seq<seq<nat>>, dtypeGiven: bool): Result<seq<nat>>
  {
    if |rests| == 0 then (if dtypeGiven then Ok([0]) else Err(MissingBlobDtype))
    else if exists i :: 0 <= i < |rests| && rests[i] != rests[0] then Err(RaggedBlobs)
    else Ok(Squeeze([|rests|] + rests[0]))
  }

  /** Structural unpacking: if every result can be indexed, the first
      element is the log-probability and the rest the blob; otherwise all
      results must be bare scalars, and there is no blob. */
  function Unpack(results: seq<EvalResult>, dtypeGiven: bool): (r: Result<Evaluation>)
    ensures r.Ok? ==> r.value.logProb == LogProbs(results)
    ensures r.Ok? ==> (r.value.blobs.Some? <==> AllTuples(results))
    ensures r.Err? && r.error == UnpackFailed <==> !AllTuples(results) && !AllScalars(results)
    ensures r.Ok? && r.value.blobs.Some? ==> |r.value.blobs.value| >= 1 && r.value.blobs.value[0] == |results|
    ensures AllScalars(results) && |results| > 0 ==> r == Ok(Evaluation(LogProbs(results), None))
    ensures AllTuples(results) ==> (r.Ok? <==> BlobShape(Rests(results), dtypeGiven).Ok?)
    ensures AllTuples(results) && r.Err? ==> r.error == BlobShape(Rests(results), dtypeGiven).error
  {
    if AllTuples(results) then
      match BlobShape(Rests(results), dtypeGiven)
      case Err(e) => Err(e)
      case Ok(shape) => Ok(Evaluation(LogProbs(results), Some(shape)))
    else if AllScalars(results) then Ok(Evaluation(LogProbs(results), None))
    else Err(UnpackFailed)
  }

  /** `compute_log_prob(coords)`. */
  function ComputeLogProb(ev: Evaluator, dtypeGiven: bool, p: Coords): (r: Result<Evaluation>)
    ensures HasInf(p) ==> r == Err(InfiniteParameter)
    ensures !HasInf(p) && HasNaN(p) ==> r == Err(NaNParameter)
    ensures r.Ok? ==> AllFinite(p) && !AnyNaN(r.value.logProb)
    ensures r.Ok? ==> r.value.logProb == LogProbs(ResultsOf(ev, p))
    ensures AllFinite(p) && Unpack(ResultsOf(ev, p), dtypeGiven).Err? ==>
      r == Err(Unpack(ResultsOf(ev, p), dtypeGiven).error)
    ensures r.Ok? && ev.PerWalker? ==>
      |r.value.logProb| == |p| && forall i :: 0 <= i < |p| ==> r.value.logProb[i] == ev.f(p[i]).lp
    ensures r.Ok? ==> (r.value.blobs.None? <==> !AllTuples(ResultsOf(ev, p)))
    ensures AllFinite(p) && Unpack(ResultsOf(ev, p), dtypeGiven).Ok? ==>
      (r.Ok? <==> !AnyNaN(LogProbs(ResultsOf(ev, p))))
    ensures AllFinite(p) && Unpack(ResultsOf(ev, p), dtypeGiven).Ok? && AnyNaN(LogProbs(ResultsOf(ev, p))) ==>
      r == Err(LogProbNaN)
  {
    match CheckParameters(p)
    case Some(e) => Err(e)
    case None =>
      match Unpack(ResultsOf(ev, p), dtypeGiven)
      case Err(e) => Err(e)
      case Ok(evaluation) =>
        if AnyNaN(evaluation.logProb) then Err(LogProbNaN) else Ok(evaluation)
  }

  /** Bare log-probabilities, finite or infinite in any mix, are accepted
      as they are, with no blob: only NaN is rejected. */
  lemma InfiniteLogProbsPass(f: seq<Num> -> EvalResult, p: Coords)
    requires |p| > 0 && AllFinite(p)
    requires forall i :: 0 <= i < |p| ==> f(p[i]).Scalar? && !f(p[i]).lp.NaN?
    ensures ComputeLogProb(PerWalker(f), false, p).Ok?
    ensures ComputeLogProb(PerWalker(f), false, p).value.logProb == seq(|p|, i requires 0 <= i < |p| => f(p[i]).lp)
    ensures ComputeLogProb(PerWalker(f), false, p).value.blobs.None?
  {
    var results := ResultsOf(PerWalker(f), p);
    assert AllScalars(results);
    assert !AllTuples(results) by { assert results[0].Scalar?; }
    assert !AnyNaN(LogProbs(results));
  }

  /** Per-walker tuples with a common blob shape give a blob array of one
      row per walker, whose singleton axes after the first are squeezed. */
  lemma BlobIsRest(f: seq<Num> -> EvalResult, dtypeGiven: bool, p: Coords, rest: RestShape)
    requires |p| > 0 && AllFinite(p)
    requires forall i :: 0 <= i < |p| ==> f(p[i]).Tuple? && f(p[i]).rest == rest && !f(p[i]).lp.NaN?
    ensures ComputeLogProb(PerWalker(f), dtypeGiven, p) == Ok(Evaluation(LogProbs(ResultsOf(PerWalker(f), p)), Some(Squeeze([|p|] + rest))))
  {
    var results := ResultsOf(PerWalker(f), p);
    assert AllTuples(results);
    var rests := Rests(results);
    assert rests[0] == rest;
    assert !exists i :: 0 <= i < |rests| && rests[i] != rests[0];
    assert !AnyNaN(LogProbs(results));
  }
}
