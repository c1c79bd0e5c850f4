/** The observable schedule of one call of the sampling generator with
    `iterations = n` and `thin_by = k`: the events of every proposal round
    and every yield, in order, and what can be counted on it. */
module SampleTrace {

  /** One thing the loop does, tagged with the round counter `i` it happens at. */
  datatype Event = Propose(round: nat) | Tune(round: nat) | Save(round: nat) | Yield(round: nat)

  datatype Kind = ProposeKind | TuneKind | SaveKind | YieldKind

  function KindOf(e: Event): Kind
  {
    match e
    case Propose(_) => ProposeKind
    case Tune(_) => TuneKind
    case Save(_) => SaveKind
    case Yield(_) => YieldKind
  }

  /** The events of round i: the proposal, the tuning when `tune` is set,
      the save when `save` is. */
  function StepBody(i: nat, tune: bool, save: bool): seq<Event>
  {
    [Propose(i)] + (if tune then [Tune(i)] else []) + (if save then [Save(i)] else [])
  }

  /** The round counter when outer round j starts: j blocks of k rounds,
      counted up one block at a time (BaseIsProduct: it is j * k). */
  function Base(j: nat, k: nat): nat
  {
    if j == 0 then 0 else Base(j - 1, k) + k
  }

  /** Inner round t of outer round j on the generator's round counter. */
  function RoundNo(j: nat, t: nat, k: nat): nat
  {
    Base(j, k) + t
  }

  /** The first t inner rounds of a block of k that starts at round lo of
      the counter: inner round t - 1 is round lo + t - 1, and it saves (when
      `store` is set) exactly when it is the block's last. */
  function InnerFrom(lo: nat, t: nat, k: nat, tune: bool, store: bool): seq<Event>
  {
    if t == 0 then [] else InnerFrom(lo, t - 1, k, tune, store) + StepBody(lo + t - 1, tune, store && t == k)
  }

  /** The first t inner rounds of outer round j, which starts at round
      Base(j, k); its last round is the one where `(i + 1) % k == 0`
      (CheckpointAtBlockEnd). */
  function Inner(j: nat, t: nat, k: nat, tune: bool, store: bool): seq<Event>
    requires k >= 1
  {
    InnerFrom(Base(j, k), t, k, tune, store)
  }

  /** Outer round j: k inner rounds, then the yield. */
  function Block(j: nat, k: nat, tune: bool, store: bool): seq<Event>
    requires k >= 1
  {
    Inner(j, k, k, tune, store) + [Yield(RoundNo(j, k - 1, k))]
  }

  /** The whole schedule of n outer rounds. */
  function Trace(n: nat, k: nat, tune: bool, store: bool): seq<Event>
    requires k >= 1
  {
    if n == 0 then [] else Trace(n - 1, k, tune, store) + Block(n - 1, k, tune, store)
  }

  // ---------------------------------------------------------------------
  // Counting on a log

  /** The rounds of the events of one kind among the first n of the log,
      in log order. */
  function RoundsUpTo(log: seq<Event>, n: nat, kind: Kind): seq<nat>
    requires n <= |log|
  {
    if n == 0 then []
    else RoundsUpTo(log, n - 1, kind) + (if KindOf(log[n - 1]) == kind then [log[n - 1].round] else [])
  }

  /** The rounds of the events of one kind, in log order. */
  function RoundsOf(log: seq<Event>, kind: Kind): seq<nat>
  {
    RoundsUpTo(log, |log|, kind)
  }

  /** lo, lo + 1, ..., lo + n - 1. */
  function Range(lo: nat, n: nat): seq<nat>
  {
    if n == 0 then [] else Range(lo, n - 1) + [lo + n - 1]
  }

  /** k - 1, 2k - 1, ..., nk - 1: the rounds that complete a block. */
  function Multiples(n: nat, k: nat): seq<nat>
    requires k >= 1
  {
    if n == 0 then [] else Multiples(n - 1, k) + [Base(n - 1, k) + k - 1]
  }

  lemma {:induction false} UpToPrefix(a: seq<Event>, b: seq<Event>, n: nat, kind: Kind)
    requires n <= |a|
    ensures RoundsUpTo(a + b, n, kind) == RoundsUpTo(a, n, kind)
  {
    if n != 0 {
      UpToPrefix(a, b, n - 1, kind);
      assert (a + b)[n - 1] == a[n - 1];
    }
  }

  lemma {:induction false} UpToSuffix(a: seq<Event>, b: seq<Event>, m: nat, kind: Kind)
    requires m <= |b|
    ensures RoundsUpTo(a + b, |a| + m, kind) == RoundsUpTo(a, |a|, kind) + RoundsUpTo(b, m, kind)
  {
    if m == 0 {
      UpToPrefix(a, b, |a|, kind);
    } else {
      UpToSuffix(a, b, m - 1, kind);
      assert (a + b)[|a| + m - 1] == b[m - 1];
    }
  }

  /** Counting distributes over concatenation of logs. */
  lemma RoundsAppend(a: seq<Event>, b: seq<Event>, kind: Kind)
    ensures RoundsOf(a + b, kind) == RoundsOf(a, kind) + RoundsOf(b, kind)
  {
    UpToSuffix(a, b, |b|, kind);
  }

  lemma SingleRounds(e: Event, kind: Kind)
    ensures RoundsOf([e], kind) == if KindOf(e) == kind then [e.round] else []
  {
    assert RoundsUpTo([e], 0, kind) == [];
  }

  lemma {:induction false} RangeAppend(lo: nat, a: nat, b: nat)
    ensures Range(lo, a) + Range(lo + a, b) == Range(lo, a + b)
  {
    if b != 0 {
      RangeAppend(lo, a, b - 1);
    }
  }

  lemma {:induction false} RangeLength(lo: nat, n: nat)
    ensures |Range(lo, n)| == n
    ensures forall x :: 0 <= x < n ==> Range(lo, n)[x] == lo + x
  {
    if n != 0 {
      RangeLength(lo, n - 1);
    }
  }

  lemma {:induction false} MultiplesAt(n: nat, k: nat)
    requires k >= 1
    ensures |Multiples(n, k)| == n
    ensures forall j :: 0 <= j < n ==> Multiples(n, k)[j] == (j + 1) * k - 1
  {
    if n != 0 {
      MultiplesAt(n - 1, k);
      BaseIsProduct(n - 1, k);
    }
  }

  // ---------------------------------------------------------------------
  // Arithmetic on the round counter

  lemma {:induction false} BaseIsProduct(j: nat, k: nat)
    ensures Base(j, k) == j * k
  {
    if j != 0 {
      BaseIsProduct(j - 1, k);
      assert (j - 1) * k + k == j * k;
    }
  }

  lemma MulAtLeast(d: int, k: int)
    requires d >= 1 && k >= 1
    ensures d * k >= k
  {
  }

  lemma MulSub(q: int, q': int, k: int)
    ensures (q - q') * k == q * k - q' * k
  {
  }

  lemma DivModUnique(a: int, k: int, q: int, r: int)
    requires k >= 1 && 0 <= r < k && a == q * k + r
    ensures a % k == r
  {
    var q', r' := a / k, a % k;
    MulSub(q, q', k);
    MulSub(q', q, k);
    if q > q' {
      MulAtLeast(q - q', k);
    } else if q < q' {
      MulAtLeast(q' - q, k);
    }
  }

  /** Inner round t of outer round j saves exactly when it is the last one. */
  lemma CheckpointAtBlockEnd(j: nat, t: nat, k: nat)
    requires k >= 1 && t < k
    ensures (RoundNo(j, t, k) + 1) % k == 0 <==> t == k - 1
  {
    BaseIsProduct(j, k);
    if t == k - 1 {
      assert j * k + t + 1 == (j + 1) * k + 0;
      DivModUnique(j * k + t + 1, k, j + 1, 0);
    } else {
      DivModUnique(j * k + t + 1, k, j, t + 1);
    }
  }

  // ---------------------------------------------------------------------
  // What the schedule does

  /** One proposal round proposes once, tunes only when `tune` is set,
      saves only when `save` is set, and never yields. */
  lemma StepRounds(i: nat, tune: bool, save: bool, kind: Kind)
    ensures RoundsOf(StepBody(i, tune, save), kind)
         == match kind
            case ProposeKind => [i]
            case TuneKind => if tune then [i] else []
            case SaveKind => if save then [i] else []
            case YieldKind => []
  {
    var p: seq<Event> := [Propose(i)];
    var t: seq<Event> := if tune then [Tune(i)] else [];
    var s: seq<Event> := if save then [Save(i)] else [];
    assert StepBody(i, tune, save) == p + t + s;
    RoundsAppend(p + t, s, kind);
    RoundsAppend(p, t, kind);
    SingleRounds(Propose(i), kind);
    if tune {
      SingleRounds(Tune(i), kind);
    }
    if save {
      SingleRounds(Save(i), kind);
    }
  }

  /** The first t inner rounds of a block starting at round lo propose at
      rounds lo .. lo + t - 1, in order. */
  lemma {:induction false} InnerProposals(lo: nat, t: nat, k: nat, tune: bool, store: bool)
    decreases t
    requires t <= k
    ensures RoundsOf(InnerFrom(lo, t, k, tune, store), ProposeKind) == Range(lo, t)
  {
    if t != 0 {
      var prev := InnerFrom(lo, t - 1, k, tune, store);
      var step := StepBody(lo + t - 1, tune, store && t == k);
      assert RoundsOf(prev, ProposeKind) == Range(lo, t - 1) by {
        InnerProposals(lo, t - 1, k, tune, store);
      }
      StepRounds(lo + t - 1, tune, store && t == k, ProposeKind);
      RoundsAppend(prev, step, ProposeKind);
      assert InnerFrom(lo, t, k, tune, store) == prev + step;
    }
  }

  /** They tune at the same rounds when `tune` is set, and never otherwise. */
  lemma {:induction false} InnerTunes(lo: nat, t: nat, k: nat, tune: bool, store: bool)
    decreases t
    requires t <= k
    ensures RoundsOf(InnerFrom(lo, t, k, tune, store), TuneKind) == if tune then Range(lo, t) else []
  {
    if t != 0 {
      var prev := InnerFrom(lo, t - 1, k, tune, store);
      var step := StepBody(lo + t - 1, tune, store && t == k);
      assert RoundsOf(prev, TuneKind) == if tune then Range(lo, t - 1) else [] by {
        InnerTunes(lo, t - 1, k, tune, store);
      }
      StepRounds(lo + t - 1, tune, store && t == k, TuneKind);
      RoundsAppend(prev, step, TuneKind);
      assert InnerFrom(lo, t, k, tune, store) == prev + step;
    }
  }

  /** They save once, at the block's last round, when `store` is set and
      the block is complete. */
  lemma {:induction false} InnerSaves(lo: nat, t: nat, k: nat, tune: bool, store: bool)
    decreases t
    requires 1 <= k && t <= k
    ensures RoundsOf(InnerFrom(lo, t, k, tune, store), SaveKind) == if store && t == k then [lo + k - 1] else []
  {
    if t != 0 {
      var prev := InnerFrom(lo, t - 1, k, tune, store);
      var step := StepBody(lo + t - 1, tune, store && t == k);
      assert RoundsOf(prev, SaveKind) == [] by {
        InnerSaves(lo, t - 1, k, tune, store);
      }
      StepRounds(lo + t - 1, tune, store && t == k, SaveKind);
      RoundsAppend(prev, step, SaveKind);
      assert InnerFrom(lo, t, k, tune, store) == prev + step;
      if store && t == k {
        assert RoundsOf(prev + step, SaveKind) == [] + [lo + k - 1];
      } else {
        assert RoundsOf(prev + step, SaveKind) == [] + [];
      }
    }
  }

  /** They never yield: the yield comes after the inner rounds. */
  lemma {:induction false} InnerYields(lo: nat, t: nat, k: nat, tune: bool, store: bool)
    decreases t
    requires t <= k
    ensures RoundsOf(InnerFrom(lo, t, k, tune, store), YieldKind) == []
  {
    if t != 0 {
      var prev := InnerFrom(lo, t - 1, k, tune, store);
      var step := StepBody(lo + t - 1, tune, store && t == k);
      assert RoundsOf(prev, YieldKind) == [] by {
        InnerYields(lo, t - 1, k, tune, store);
      }
      StepRounds(lo + t - 1, tune, store && t == k, YieldKind);
      RoundsAppend(prev, step, YieldKind);
      assert InnerFrom(lo, t, k, tune, store) == prev + step;
    }
  }

  lemma {:induction false} TraceProposals(n: nat, k: nat, tune: bool, store: bool)
    requires k >= 1
    ensures RoundsOf(Trace(n, k, tune, store), ProposeKind) == Range(0, Base(n, k))
  {
    if n != 0 {
      var j := n - 1;
      var base := Base(j, k);
      var prev := Trace(j, k, tune, store);
      var block := Block(j, k, tune, store);
      assert Trace(n, k, tune, store) == prev + block;
      assert RoundsOf(block, ProposeKind) == Range(base, k) by {
        BlockRounds(j, k, tune, store);
      }
      assert RoundsOf(prev, ProposeKind) == Range(0, base) by {
        TraceProposals(j, k, tune, store);
      }
      RangeAppend(0, base, k);
      RoundsAppend(prev, block, ProposeKind);
    }
  }

  lemma {:induction false} TraceTunes(n: nat, k: nat, tune: bool, store: bool)
    requires k >= 1
    ensures RoundsOf(Trace(n, k, tune, store), TuneKind) == (if tune then Range(0, Base(n, k)) else [])
  {
    if n != 0 {
      var j := n - 1;
      var base := Base(j, k);
      var prev := Trace(j, k, tune, store);
      var block := Block(j, k, tune, store);
      assert Trace(n, k, tune, store) == prev + block;
      assert Base(n, k) == base + k;
      assert RoundsOf(block, TuneKind) == (if tune then Range(base, k) else []) by {
        BlockRounds(j, k, tune, store);
      }
      assert RoundsOf(prev, TuneKind) == (if tune then Range(0, base) else []) by {
        TraceTunes(j, k, tune, store);
      }
      RoundsAppend(prev, block, TuneKind);
      if tune {
        assert RoundsOf(prev + block, TuneKind) == Range(0, base) + Range(base, k);
        RangeAppend(0, base, k);
      } else {
        assert RoundsOf(prev + block, TuneKind) == [] + [];
      }
    }
  }

  lemma {:induction false} TraceYields(n: nat, k: nat, tune: bool, store: bool)
    requires k >= 1
    ensures RoundsOf(Trace(n, k, tune, store), YieldKind) == Multiples(n, k)
  {
    if n != 0 {
      var j := n - 1;
      var base := Base(j, k);
      var prev := Trace(j, k, tune, store);
      var block := Block(j, k, tune, store);
      assert Trace(n, k, tune, store) == prev + block;
      assert RoundsOf(block, YieldKind) == [base + k - 1] by {
        BlockRounds(j, k, tune, store);
      }
      assert RoundsOf(prev, YieldKind) == Multiples(j, k) by {
        TraceYields(j, k, tune, store);
      }
      assert Multiples(n, k) == Multiples(j, k) + [base + k - 1];
      RoundsAppend(prev, block, YieldKind);
    }
  }

  lemma {:induction false} TraceSaves(n: nat, k: nat, tune: bool, store: bool)
    requires k >= 1
    ensures RoundsOf(Trace(n, k, tune, store), SaveKind) == (if store then Multiples(n, k) else [])
  {
    if n != 0 {
      var j := n - 1;
      var base := Base(j, k);
      var prev := Trace(j, k, tune, store);
      var block := Block(j, k, tune, store);
      calc {
        RoundsOf(Trace(n, k, tune, store), SaveKind);
      == { assert Trace(n, k, tune, store) == prev + block; }
        RoundsOf(prev + block, SaveKind);
      == { RoundsAppend(prev, block, SaveKind); }
        RoundsOf(prev, SaveKind) + RoundsOf(block, SaveKind);
      == { TraceSaves(j, k, tune, store); BlockRounds(j, k, tune, store); }
        (if store then Multiples(j, k) else []) + (if store then [base + k - 1] else []);
      == { assert Multiples(n, k) == Multiples(j, k) + [base + k - 1]; }
        if store then Multiples(n, k) else [];
      }
    }
  }

  /** n outer rounds of k inner rounds: proposals at rounds 0 .. nk-1 in
      order (so exactly n*k of them), tuning at the same rounds exactly when
      `tune` is set, a yield after every k-th round (so exactly n), and a
      save at exactly the yielded rounds when `store` is set, none otherwise. */
  lemma TraceRounds(n: nat, k: nat, tune: bool, store: bool)
    requires k >= 1
    ensures RoundsOf(Trace(n, k, tune, store), ProposeKind) == Range(0, n * k)
    ensures RoundsOf(Trace(n, k, tune, store), TuneKind) == if tune then Range(0, n * k) else []
    ensures RoundsOf(Trace(n, k, tune, store), YieldKind) == Multiples(n, k)
    ensures RoundsOf(Trace(n, k, tune, store), SaveKind) == if store then Multiples(n, k) else []
  {
    TraceProposals(n, k, tune, store);
    TraceTunes(n, k, tune, store);
    TraceYields(n, k, tune, store);
    TraceSaves(n, k, tune, store);
    BaseIsProduct(n, k);
  }

  /** Outer round j: the inner rounds' events, then one yield at the
      block's last round. */
  lemma BlockRounds(j: nat, k: nat, tune: bool, store: bool)
    requires k >= 1
    ensures RoundsOf(Block(j, k, tune, store), ProposeKind) == Range(Base(j, k), k)
    ensures RoundsOf(Block(j, k, tune, store), TuneKind) == if tune then Range(Base(j, k), k) else []
    ensures RoundsOf(Block(j, k, tune, store), SaveKind) == if store then [Base(j, k) + k - 1] else []
    ensures RoundsOf(Block(j, k, tune, store), YieldKind) == [Base(j, k) + k - 1]
  {
    var lo := Base(j, k);
    var inner := InnerFrom(lo, k, k, tune, store);
    var y: seq<Event> := [Yield(lo + k - 1)];
    assert Block(j, k, tune, store) == inner + y;
    assert RoundsOf(inner + y, ProposeKind) == Range(lo, k) by {
      InnerProposals(lo, k, k, tune, store);
      RoundsAppend(inner, y, ProposeKind);
      SingleRounds(Yield(lo + k - 1), ProposeKind);
    }
    assert RoundsOf(inner + y, TuneKind) == if tune then Range(lo, k) else [] by {
      InnerTunes(lo, k, k, tune, store);
      RoundsAppend(inner, y, TuneKind);
      SingleRounds(Yield(lo + k - 1), TuneKind);
    }
    assert RoundsOf(inner + y, SaveKind) == if store then [lo + k - 1] else [] by {
      InnerSaves(lo, k, k, tune, store);
      RoundsAppend(inner, y, SaveKind);
      SingleRounds(Yield(lo + k - 1), SaveKind);
    }
    assert RoundsOf(inner + y, YieldKind) == [lo + k - 1] by {
      InnerYields(lo, k, k, tune, store);
      RoundsAppend(inner, y, YieldKind);
      SingleRounds(Yield(lo + k - 1), YieldKind);
    }
  }

  /** The counts the sampler documents, read off TraceRounds. */
  lemma TraceCounts(n: nat, k: nat, tune: bool, store: bool)
    requires k >= 1
    ensures |RoundsOf(Trace(n, k, tune, store), ProposeKind)| == n * k
    ensures |RoundsOf(Trace(n, k, tune, store), YieldKind)| == n
    ensures |RoundsOf(Trace(n, k, tune, store), SaveKind)| == if store then n else 0
    ensures |RoundsOf(Trace(n, k, tune, store), TuneKind)| == if tune then n * k else 0
    ensures forall j :: 0 <= j < n ==> RoundsOf(Trace(n, k, tune, store), YieldKind)[j] == (j + 1) * k - 1
  {
    TraceRounds(n, k, tune, store);
    RangeLength(0, n * k);
    MultiplesAt(n, k);
  }

  lemma {:induction false} InnerPrefix(j: nat, t: nat, u: nat, k: nat, tune: bool, store: bool)
    requires k >= 1 && t <= u
    ensures Inner(j, t, k, tune, store) <= Inner(j, u, k, tune, store)
    decreases u - t
  {
    if t < u {
      InnerPrefix(j, t, u - 1, k, tune, store);
    }
  }

  /** One more inner round appends that round's events. */
  lemma InnerStep(j: nat, t: nat, k: nat, tune: bool, store: bool)
    requires k >= 1
    ensures Inner(j, t + 1, k, tune, store) == Inner(j, t, k, tune, store) + StepBody(RoundNo(j, t, k), tune, store && t + 1 == k)
  {
  }

  lemma {:induction false} TracePrefix(m: nat, n: nat, k: nat, tune: bool, store: bool)
    requires k >= 1 && m <= n
    ensures Trace(m, k, tune, store) <= Trace(n, k, tune, store)
    decreases n - m
  {
    if m < n {
      TracePrefix(m, n - 1, k, tune, store);
    }
  }

  /** A run stopped part-way through outer round j (having logged a prefix
      of that round's inner rounds) has produced a prefix of the full
      schedule. */
  lemma PartialRunIsPrefix(n: nat, j: nat, part: seq<Event>, k: nat, tune: bool, store: bool)
    requires k >= 1 && j < n && part <= Inner(j, k, k, tune, store)
    ensures Trace(j, k, tune, store) + part <= Trace(n, k, tune, store)
  {
    var prev := Trace(j, k, tune, store);
    var block := Block(j, k, tune, store);
    var next := Trace(j + 1, k, tune, store);
    assert Inner(j, k, k, tune, store) <= block;
    PrefixOfPrefix(part, Inner(j, k, k, tune, store), block);
    assert next == prev + block;
    PrefixExtend(prev, part, block);
    assert next <= Trace(n, k, tune, store) by {
      TracePrefix(j + 1, n, k, tune, store);
    }
    PrefixOfPrefix(prev + part, next, Trace(n, k, tune, store));
  }

  /** Completing outer round j extends the schedule of j rounds to j + 1. */
  lemma BlockStep(j: nat, k: nat, tune: bool, store: bool)
    requires k >= 1
    ensures Trace(j, k, tune, store) + Inner(j, k, k, tune, store) + [Yield(RoundNo(j, k - 1, k))]
         == Trace(j + 1, k, tune, store)
  {
  }

  lemma PrefixExtend<T>(x: seq<T>, a: seq<T>, b: seq<T>)
    requires a <= b
    ensures x + a <= x + b
  {
    assert (x + b)[..|x + a|] == x + b[..|a|];
  }

  lemma PrefixOfPrefix<T>(a: seq<T>, b: seq<T>, c: seq<T>)
    requires a <= b && b <= c
    ensures a <= c
  {
    assert c[..|a|] == b[..|a|];
  }

  /** The part of the log up to the j-th yield (counting from 1) is a prefix
      of the whole log, ends with that yield, made after round jk - 1, and
      holds exactly j*k proposals and j yields. */
  lemma YieldAfterProposals(n: nat, k: nat, tune: bool, store: bool, j: nat)
    requires k >= 1 && 1 <= j <= n
    ensures Trace(j, k, tune, store) <= Trace(n, k, tune, store)
    ensures Trace(j, k, tune, store)[|Trace(j, k, tune, store)| - 1] == Yield(j * k - 1)
    ensures |RoundsOf(Trace(j, k, tune, store), ProposeKind)| == j * k
    ensures |RoundsOf(Trace(j, k, tune, store), YieldKind)| == j
  {
    TracePrefix(j, n, k, tune, store);
    TraceCounts(j, k, tune, store);
    BaseIsProduct(j - 1, k);
    assert (j - 1) * k + k == j * k;
  }
}
