/**
 The early-stopping decision `Trainer.early_stop` (odin/backend/keras_helpers.py),
 after Prechelt's "Early Stopping - but when?": a generalisation loss
 `GL = current / best - 1`, a training progression over the last `k` losses
 `PG = 10 * (sum / (k * min) - 1)`, a patience rule and a warm-up period.

 Losses are exact reals; a loss that is NaN or infinite is a separate
 constructor, and the decision follows IEEE/numpy arithmetic for it
 (every comparison with NaN is false, `inf / inf` is NaN, and a positive
 number divided by a zero progression is `+inf`).
 */
module EarlyStop {
  import opened Common

  datatype Loss = Finite(v: real) | NaN | Inf

  /** `None`, `Trainer.SIGNAL_TERMINATE` or `Trainer.SIGNAL_BEST`. */
  datatype Signal = NoSignal | Terminate | Best

  /** The keyword arguments of `early_stop`; `minEpoch == None` is the
      default `-inf`. */
  datatype Config = Config(
    threshold: real,
    progressLength: int,
    patience: int,
    minEpoch: Option<int>,
    terminateOnNan: bool)

  const Defaults: Config := Config(0.2, 5, 5, None, true)

  /** Every loss but the last is a finite positive number; the last may also
      be NaN or infinite. */
  predicate ValidHistory(losses: seq<Loss>) {
    && (forall i :: 0 <= i < |losses| ==> losses[i].Finite? ==> losses[i].v > 0.0)
    && (forall i :: 0 <= i < |losses| - 1 ==> losses[i].Finite?)
  }

  predicate AllFinite(losses: seq<Loss>) {
    forall i :: 0 <= i < |losses| ==> losses[i].Finite?
  }

  function Values(losses: seq<Loss>): (r: seq<real>)
    requires AllFinite(losses)
    ensures |r| == |losses|
    ensures forall i :: 0 <= i < |losses| ==> r[i] == losses[i].v
  {
    seq(|losses|, i requires 0 <= i < |losses| => losses[i].v)
  }

  /** `np.min`; its two defining properties are the lemmas below. */
  function Min(s: seq<real>): real
    requires |s| > 0
  {
    if |s| == 1 then s[0]
    else
      var rest := Min(s[1..]);
      if s[0] <= rest then s[0] else rest
  }

  lemma {:induction false} MinIsLowerBound(s: seq<real>)
    requires |s| > 0
    ensures forall i :: 0 <= i < |s| ==> Min(s) <= s[i]
  {
    if |s| > 1 {
      MinIsLowerBound(s[1..]);
      assert forall i :: 1 <= i < |s| ==> s[i] == s[1..][i - 1];
    }
  }

  lemma {:induction false} MinIsMember(s: seq<real>)
    requires |s| > 0
    ensures exists i :: 0 <= i < |s| && Min(s) == s[i]
  {
    if |s| == 1 || s[0] <= Min(s[1..]) {
      assert Min(s) == s[0];
    } else {
      MinIsMember(s[1..]);
      var j :| 0 <= j < |s[1..]| && Min(s[1..]) == s[1..][j];
      assert Min(s) == s[j + 1];
    }
  }

  /** `np.sum`. */
  function Sum(s: seq<real>): real {
    if |s| == 0 then 0.0 else s[0] + Sum(s[1..])
  }

  /** `len(losses) < max(2., min_epoch)` is the warm-up. */
  function WarmupLength(cfg: Config): int {
    if cfg.minEpoch.Some? && cfg.minEpoch.value > 2 then cfg.minEpoch.value else 2
  }

  function Last(losses: seq<Loss>): Loss
    requires |losses| > 0
  {
    losses[|losses| - 1]
  }

  /** `np.min(losses[:-1])`. */
  function BestLoss(losses: seq<Loss>): (b: real)
    requires |losses| >= 2 && ValidHistory(losses)
    ensures b > 0.0
    ensures forall i :: 0 <= i < |losses| - 1 ==> b <= losses[i].v
    ensures exists i :: 0 <= i < |losses| - 1 && b == losses[i].v
  {
    var earlier := losses[..|losses| - 1];
    assert AllFinite(earlier);
    var vs := Values(earlier);
    MinIsLowerBound(vs);
    MinIsMember(vs);
    Min(vs)
  }

  /** Real division, kept as a function of its own so that equal operands
      give equal quotients without unfolding the arithmetic. */
  function Quotient(a: real, b: real): real
    requires b != 0.0
  {
    a / b
  }

  /** `i / best - 1 >= threshold / 2` for one loss of the patience window. */
  predicate Exceeds(l: Loss, best: real, threshold: real)
    requires best > 0.0
  {
    match l
    case Finite(v) => Quotient(v, best) - 1.0 >= threshold / 2.0
    case NaN => false
    case Inf => true
  }

  /** The patience rule: each of the last `patience` losses is worse than the
      best earlier loss by at least half the threshold. */
  predicate PatienceExceeded(losses: seq<Loss>, cfg: Config)
    requires |losses| >= 2 && ValidHistory(losses)
  {
    && cfg.patience > 1
    && |losses| > cfg.patience
    && forall i :: |losses| - cfg.patience <= i < |losses| ==>
         Exceeds(losses[i], BestLoss(losses), cfg.threshold)
  }

  /** `GL(t) = losses[-1] / min(losses[:-1]) - 1` for a finite last loss. */
  function Generalization(losses: seq<Loss>): real
    requires |losses| >= 2 && ValidHistory(losses) && Last(losses).Finite?
  {
    Quotient(Last(losses).v, BestLoss(losses)) - 1.0
  }

  /** `PG(t)`: `10 * (sum(L) / (k * min(L)) - 1)` with `L = losses[-k:]`
      when `k > 1`, and `1` otherwise. Note the division by `k`, not by the
      length of `L`, which is shorter than `k` early in training. */
  function Progression(losses: seq<Loss>, k: int): real
    requires |losses| >= 1 && ValidHistory(losses) && AllFinite(losses)
  {
    if k > 1 then
      var w := WindowValues(losses, k);
      MinIsPositive(w);
      ProgressionValue(Sum(w), k, Min(w))
    else 1.0
  }

  /** `10 * (total / (k * least) - 1)`. */
  function ProgressionValue(total: real, k: int, least: real): real
    requires k > 1 && least > 0.0
  {
    10.0 * (total / ((k as real) * least) - 1.0)
  }

  /** The values of `losses[-k:]` for a positive `k`, all positive. */
  function WindowValues(losses: seq<Loss>, k: int): (w: seq<real>)
    requires ValidHistory(losses) && AllFinite(losses) && k > 0
    ensures |w| == if k >= |losses| then |losses| else k
    ensures forall i :: 0 <= i < |w| ==> w[i] == losses[|losses| - |w| + i].v
    ensures forall i :: 0 <= i < |w| ==> w[i] > 0.0
  {
    var n := if k >= |losses| then |losses| else k;
    seq(n, i requires 0 <= i < n => losses[|losses| - n + i].v)
  }

  lemma MinIsPositive(s: seq<real>)
    requires |s| > 0 && forall i :: 0 <= i < |s| ==> s[i] > 0.0
    ensures Min(s) > 0.0
  {
    MinIsMember(s);
  }

  /** `Trainer.early_stop(losses, ...)`. */
  function Decide(losses: seq<Loss>, cfg: Config): (r: Signal)
    requires ValidHistory(losses)
    ensures |losses| == 0 ==> r == NoSignal
    ensures |losses| > 0 && cfg.terminateOnNan && !Last(losses).Finite? ==> r == Terminate
    ensures |losses| > 0 && (!cfg.terminateOnNan || Last(losses).Finite?) && |losses| < WarmupLength(cfg)
            ==> r == Best
    ensures r == Best ==>
              |losses| < WarmupLength(cfg)
              || (Last(losses).Finite? && forall i :: 0 <= i < |losses| - 1 ==> Last(losses).v <= losses[i].v)
    ensures r == Terminate && |losses| >= WarmupLength(cfg) && Last(losses).Finite? ==>
              PatienceExceeded(losses, cfg)
              || (Generalization(losses) > 0.0
                  && var p := Progression(losses, cfg.progressLength);
                     p == 0.0 || Quotient(Generalization(losses), p) >= cfg.threshold)
    ensures |losses| >= WarmupLength(cfg) && (!cfg.terminateOnNan || Last(losses).Finite?) ==>
              (PatienceExceeded(losses, cfg) ==> r == Terminate)
    ensures |losses| >= WarmupLength(cfg) && !cfg.terminateOnNan && !PatienceExceeded(losses, cfg) ==>
              && (Last(losses).NaN? ==> r == NoSignal)
              && (Last(losses).Inf? ==> (r == Terminate <==> cfg.progressLength <= 1))
  {
    if |losses| == 0 then NoSignal
    else if cfg.terminateOnNan && !Last(losses).Finite? then Terminate
    else if |losses| < WarmupLength(cfg) then Best
    else if PatienceExceeded(losses, cfg) then Terminate
    else
      match Last(losses)
      case NaN => NoSignal
      case Inf => if cfg.progressLength > 1 then NoSignal else Terminate
      case Finite(current) =>
        var best := BestLoss(losses);
        var g := Generalization(losses);
        assert g <= 0.0 <==> current <= best by {
          DivisionOrder(current, best);
        }
        if g <= 0.0 then Best
        else
          var p := Progression(losses, cfg.progressLength);
          // numpy: a positive generalisation over a zero progression is +inf
          if p == 0.0 || Quotient(g, p) >= cfg.threshold then Terminate else NoSignal
  }

  lemma DivisionOrder(a: real, b: real)
    requires b > 0.0
    ensures Quotient(a, b) - 1.0 <= 0.0 <==> a <= b
  {
    assert a / b * b == a;
    if a <= b {
      assert a / b <= 1.0;
    } else {
      assert a / b > 1.0;
    }
  }

  /** A finite loss that matches or beats every earlier loss is reported as
      the best model, whenever the threshold is positive. */
  lemma NewMinimumIsBest(losses: seq<Loss>, cfg: Config)
    requires ValidHistory(losses) && |losses| > 0
    requires cfg.threshold > 0.0
    requires Last(losses).Finite?
    requires forall i :: 0 <= i < |losses| - 1 ==> Last(losses).v <= losses[i].v
    ensures Decide(losses, cfg) == Best
  {
    if |losses| >= WarmupLength(cfg) {
      var best := BestLoss(losses);
      var j :| 0 <= j < |losses| - 1 && best == losses[j].v;
      var current := Last(losses).v;
      assert current <= best;
      DivisionOrder(current, best);
      assert !Exceeds(losses[|losses| - 1], best, cfg.threshold);
      assert !PatienceExceeded(losses, cfg);
    }
  }

  lemma MulMonotone(a: real, x: real, y: real)
    requires a >= 0.0 && x >= y
    ensures a * x >= a * y
  {
  }

  /** `sum(L) >= len(L) * min(L)`, for any lower bound `m` of `L`. */
  lemma {:induction false} SumAtLeastLengthTimesBound(s: seq<real>, m: real)
    requires forall i :: 0 <= i < |s| ==> m <= s[i]
    ensures Sum(s) >= (|s| as real) * m
  {
    if |s| > 0 {
      var rest := s[1..];
      assert forall i :: 0 <= i < |rest| ==> rest[i] == s[i + 1];
      SumAtLeastLengthTimesBound(rest, m);
      assert Sum(s) == s[0] + Sum(rest);
      assert (|s| as real) * m == m + (|rest| as real) * m;
    }
  }

  /** Once at least `k` losses exist, the progression over the last `k` is
      never negative. */
  lemma ProgressionNonNegative(losses: seq<Loss>, k: int)
    requires ValidHistory(losses) && AllFinite(losses)
    requires 1 < k <= |losses|
    ensures Progression(losses, k) >= 0.0
  {
    var w := WindowValues(losses, k);
    MinIsLowerBound(w);
    MinIsPositive(w);
    SumAtLeastLengthTimesBound(w, Min(w));
    ProgressionValueNonNegative(Sum(w), k, Min(w));
  }

  lemma ProgressionValueNonNegative(total: real, k: int, least: real)
    requires k > 1 && least > 0.0
    requires total >= (k as real) * least
    ensures ProgressionValue(total, k, least) >= 0.0
  {
    var d := (k as real) * least;
    PositiveProduct(k as real, least);
    assert total / d * d == total;
    assert total / d >= 1.0;
  }

  lemma PositiveProduct(a: real, b: real)
    requires a > 0.0 && b > 0.0
    ensures a * b > 0.0
  {
  }

  /** The generalisation rule, both ways: past the warm-up, with a finite
      last loss, no patience stop and a positive generalisation loss, the
      decision is to terminate exactly when `GL / PG` reaches the threshold
      (or `PG` is zero), and to continue otherwise. */
  lemma GeneralizationRule(losses: seq<Loss>, cfg: Config)
    requires ValidHistory(losses) && AllFinite(losses)
    requires |losses| >= WarmupLength(cfg)
    requires !PatienceExceeded(losses, cfg)
    requires Generalization(losses) > 0.0
    ensures var g, p := Generalization(losses), Progression(losses, cfg.progressLength);
            Decide(losses, cfg) == (if p == 0.0 || Quotient(g, p) >= cfg.threshold then Terminate else NoSignal)
  {
  }

  /** Lowering the threshold never withdraws a termination. */
  lemma TerminationMonotoneInThreshold(losses: seq<Loss>, cfg: Config, lower: real)
    requires ValidHistory(losses)
    requires lower <= cfg.threshold
    requires Decide(losses, cfg) == Terminate
    ensures Decide(losses, cfg.(threshold := lower)) == Terminate
  {
    var low := cfg.(threshold := lower);
    if |losses| >= WarmupLength(cfg) && |losses| >= 2 && PatienceExceeded(losses, cfg) {
      var b := BestLoss(losses);
      forall i | |losses| - cfg.patience <= i < |losses|
        ensures Exceeds(losses[i], b, lower)
      {
        assert Exceeds(losses[i], b, cfg.threshold);
      }
      assert PatienceExceeded(losses, low);
    }
  }
}
