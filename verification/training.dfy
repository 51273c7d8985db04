/**
 The parts of `Trainer` and its helpers in odin/backend/keras_helpers.py
 that are not numerics: the argument-name check on the user's `optimize`
 function and the keyword call built from it, the append-without-duplicates
 rule of `add_trainable_weights`, the parallelism argument mapping of
 `Trainer.prepare`, and the iteration schedule of `Trainer.fit`.

 `optimize`, `valid` and `callback` are opaque: the model passes them in as
 functions and records only what the schedule does with their results.
 */
module Training {
  import opened Common
  import EarlyStop

  // ---------------------------------------------------------------------
  // validate_optimize and the call made by `step`
  // ---------------------------------------------------------------------

  /** The keyword parameters `fit` knows how to fill. */
  const Template: set<string> := {"tape", "training", "n_iter"}

  /** `Trainer.validate_optimize` as written: `'tape'` must be among the
      parameter names, and every name after the first must be a template
      name. The first parameter receives the batch positionally. */
  function ValidateOptimize(args: seq<string>): (r: Result<seq<string>>)
    ensures r.Ok? <==> "tape" in args && forall i :: 1 <= i < |args| ==> args[i] in Template
    ensures r.Ok? ==> r.value == args
    ensures r.Err? ==> r.error == AssertionError
  {
    if "tape" !in args then Err(AssertionError)
    else if exists i :: 1 <= i < |args| && args[i] !in Template then Err(AssertionError)
    else Ok(args)
  }

  /** The keywords `step` passes: `tape` always, `n_iter` and `training` when
      the function declares them. */
  function StepKeywords(args: seq<string>): (kw: set<string>)
    ensures kw <= Template
    ensures forall name :: name in kw <==> name == "tape" || (name in Template && name in args)
  {
    {"tape"} + (if "n_iter" in args then {"n_iter"} else {})
      + (if "training" in args then {"training"} else {})
  }

  /** Python's argument binding for `f(batch, **keywords)` against a
      parameter list without `*args`/`**kwargs`: a keyword that names the
      parameter already bound positionally, or no parameter at all, is a
      `TypeError`; so is a parameter left without a value. */
  function BindCall(params: seq<string>, keywords: set<string>): (r: Result<()>)
    requires |params| >= 1
    ensures r.Ok? <==>
              && params[0] !in keywords
              && (forall k :: k in keywords ==> k in params)
              && (forall i :: 1 <= i < |params| ==> params[i] in keywords)
    ensures r.Err? ==> r.error == TypeError
  {
    if params[0] in keywords then Err(TypeError)
    else if exists k :: k in keywords && k !in params then Err(TypeError)
    else if exists i :: 1 <= i < |params| && params[i] !in keywords then Err(TypeError)
    else Ok(())
  }

  /** The call `optimize(inputs, tape=..., **kw)` made by `step`, for a
      function whose parameters are `args`. */
  function StepCall(args: seq<string>): (r: Result<()>)
    ensures |args| == 0 ==> r == Err(TypeError)
    ensures |args| >= 1 ==> r == BindCall(args, StepKeywords(args))
  {
    if |args| == 0 then Err(TypeError) else BindCall(args, StepKeywords(args))
  }

  /** The argument list `['tape']` passes the check, yet the first call of
      `step` gives the batch positionally to `tape` and then `tape=` again. */
  lemma ValidatedCallCanFail()
    ensures ValidateOptimize(["tape"]).Ok?
    ensures StepCall(["tape"]) == Err(TypeError)
  {
    assert "tape" in StepKeywords(["tape"]);
  }

  /** The check `fit` evidently needs: the first parameter takes the batch
      and is no template name, and `tape` is among the rest. */
  function ValidateOptimizeIntended(args: seq<string>): (r: Result<seq<string>>)
    ensures r.Ok? <==>
              && |args| >= 1
              && args[0] !in Template
              && "tape" in args[1..]
              && forall i :: 1 <= i < |args| ==> args[i] in Template
    ensures r.Ok? ==> r.value == args
    ensures r.Err? ==> r.error == AssertionError
  {
    if |args| == 0 || args[0] in Template || "tape" !in args[1..] then Err(AssertionError)
    else if exists i :: 1 <= i < |args| && args[i] !in Template then Err(AssertionError)
    else Ok(args)
  }

  /** The corrected check accepts exactly the argument lists that the
      original check accepts and for which the call in `step` binds; on
      those, every declared keyword parameter receives one value. */
  lemma {:induction false} IntendedValidationMatchesCall(args: seq<string>)
    ensures ValidateOptimizeIntended(args).Ok? <==> ValidateOptimize(args).Ok? && StepCall(args).Ok?
    ensures ValidateOptimizeIntended(args).Ok? ==>
              StepKeywords(args) == set i | 1 <= i < |args| :: args[i]
  {
    if ValidateOptimizeIntended(args).Ok? {
      var kw := StepKeywords(args);
      assert "tape" in args;
      forall k | k in kw ensures k in args[1..] {
        if k != "tape" {
          var i :| 0 <= i < |args| && args[i] == k;
          assert i != 0;
          assert args[1..][i - 1] == k;
        }
      }
      forall i | 1 <= i < |args| ensures args[i] in kw {
        assert args[i] in args;
      }
      assert StepCall(args).Ok?;
      assert kw == set i | 1 <= i < |args| :: args[i];
    }
    if ValidateOptimize(args).Ok? && StepCall(args).Ok? {
      assert |args| >= 1;
      var kw := StepKeywords(args);
      assert args[0] !in kw;
      assert "tape" in kw;
      var j :| 0 <= j < |args| && args[j] == "tape";
      assert j != 0;
      assert args[1..][j - 1] == "tape";
    }
  }

  // ---------------------------------------------------------------------
  // add_trainable_weights
  // ---------------------------------------------------------------------

  /** The elements of `vars` that are not in `present`, in order. */
  function Missing<V(==)>(vars: seq<V>, present: seq<V>): (r: seq<V>)
    ensures |r| <= |vars|
    ensures forall i :: 0 <= i < |r| ==> r[i] in vars && r[i] !in present
    ensures forall i :: 0 <= i < |vars| && vars[i] !in present ==> vars[i] in r
  {
    if |vars| == 0 then []
    else (if vars[0] in present then [] else [vars[0]]) + Missing(vars[1..], present)
  }

  /** `layer._trainable_weights` after `add_trainable_weights(layer, *vars)`. */
  function AddTrainableWeights<V(==,!new)>(weights: seq<V>, vars: seq<V>): (r: seq<V>)
    ensures |weights| <= |r| <= |weights| + |vars|
    ensures r[..|weights|] == weights
    ensures forall i :: 0 <= i < |r| ==> r[i] in weights || r[i] in vars
    ensures forall i :: 0 <= i < |vars| ==> vars[i] in r
    ensures forall i :: |weights| <= i < |r| ==> r[i] !in weights
    ensures IsSubsequence(r[|weights|..], vars)
    ensures forall v :: multiset(r[|weights|..])[v] == if v in weights then 0 else multiset(vars)[v]
  {
    MissingIsFilter(vars, weights);
    var r := weights + Missing(vars, weights);
    assert r[|weights|..] == Missing(vars, weights);
    r
  }

  /** `Missing` is the in-order filter: a subsequence of `vars` holding
      every occurrence of a variable not yet present, and nothing else. */
  lemma MissingIsFilter<V>(vars: seq<V>, present: seq<V>)
    ensures IsSubsequence(Missing(vars, present), vars)
    ensures forall v :: multiset(Missing(vars, present))[v] == if v in present then 0 else multiset(vars)[v]
  {
    MissingSubsequence(vars, present);
    MissingCounts(vars, present);
  }

  lemma {:induction false} MissingSubsequence<V>(vars: seq<V>, present: seq<V>)
    ensures IsSubsequence(Missing(vars, present), vars)
  {
    if |vars| > 0 {
      var h, rest := vars[0], vars[1..];
      var tail := Missing(rest, present);
      MissingSubsequence(rest, present);
      assert vars == [h] + rest;
      if h in present {
        assert Missing(vars, present) == tail;
        SubsequenceSkip(h, tail, rest);
      } else {
        assert Missing(vars, present) == [h] + tail;
        SubsequencePrepend(h, tail, rest);
      }
    }
  }

  lemma {:induction false} MissingCounts<V>(vars: seq<V>, present: seq<V>)
    ensures forall v :: multiset(Missing(vars, present))[v] == if v in present then 0 else multiset(vars)[v]
  {
    if |vars| > 0 {
      var h, rest := vars[0], vars[1..];
      var tail := Missing(rest, present);
      MissingCounts(rest, present);
      assert vars == [h] + rest;
      assert multiset(vars) == multiset{h} + multiset(rest);
      if h in present {
        assert Missing(vars, present) == tail;
      } else {
        assert Missing(vars, present) == [h] + tail;
        assert multiset([h] + tail) == multiset{h} + multiset(tail);
      }
    }
  }

  /** Adding the same variables a second time changes nothing. */
  lemma AddTrainableWeightsIdempotent<V(!new)>(weights: seq<V>, vars: seq<V>)
    ensures AddTrainableWeights(AddTrainableWeights(weights, vars), vars)
            == AddTrainableWeights(weights, vars)
  {
    var once := AddTrainableWeights(weights, vars);
    MissingOfPresent(vars, once);
  }

  lemma {:induction false} MissingOfPresent<V>(vars: seq<V>, present: seq<V>)
    requires forall v :: v in vars ==> v in present
    ensures Missing(vars, present) == []
  {
    if |vars| > 0 {
      assert vars[0] in vars;
      MissingOfPresent(vars[1..], present);
    }
  }

  predicate Distinct<V(==)>(s: seq<V>) {
    forall i, j :: 0 <= i < j < |s| ==> s[i] != s[j]
  }

  lemma {:induction false} MissingDistinct<V>(vars: seq<V>, present: seq<V>)
    requires Distinct(vars)
    ensures Distinct(Missing(vars, present))
  {
    if |vars| > 0 {
      var rest := vars[1..];
      assert Distinct(rest) by {
        forall i, j | 0 <= i < j < |rest| ensures rest[i] != rest[j] {
          assert rest[i] == vars[i + 1] && rest[j] == vars[j + 1];
        }
      }
      MissingDistinct(rest, present);
      assert vars[0] !in rest by {
        forall i | 0 <= i < |rest| ensures rest[i] != vars[0] {
          assert rest[i] == vars[i + 1];
        }
      }
      assert vars[0] !in Missing(rest, present);
    }
  }

  /** Weights stay free of duplicates when the added variables are. */
  lemma AddTrainableWeightsDistinct<V(!new)>(weights: seq<V>, vars: seq<V>)
    requires Distinct(weights) && Distinct(vars)
    ensures Distinct(AddTrainableWeights(weights, vars))
  {
    var m := Missing(vars, weights);
    MissingDistinct(vars, weights);
    var r := weights + m;
    forall i, j | 0 <= i < j < |r| ensures r[i] != r[j] {
      if j >= |weights| && i < |weights| {
        assert r[j] == m[j - |weights|];
        assert r[j] !in weights;
      }
    }
  }

  /** Distinctness of `vars` is needed: a variable given twice, and not yet
      a weight, is appended twice. */
  lemma RepeatedVariableIsAddedTwice()
    ensures AddTrainableWeights([0], [1, 1]) == [0, 1, 1]
  {
    assert Missing([1], [0]) == [1] by {
      assert [1][1..] == [];
    }
    assert [1, 1][1..] == [1];
    assert Missing([1, 1], [0]) == [1, 1];
  }

  // ---------------------------------------------------------------------
  // Trainer.prepare: num_parallel_calls
  // ---------------------------------------------------------------------

  datatype Parallelism = Sequential | Autotune | Workers(n: int)

  /** `parallel_preprocess`/`parallel_postprocess` to `num_parallel_calls`:
      0 is sequential (`None`), -1 is `AUTOTUNE`, anything else a count. */
  function ParallelCalls(p: int): (r: Parallelism)
    ensures r == Sequential <==> p == 0
    ensures r == Autotune <==> p == -1
    ensures r.Workers? <==> p != 0 && p != -1
    ensures r.Workers? ==> r.n == p
  {
    if p == 0 then Sequential else if p == -1 then Autotune else Workers(p)
  }

  // ---------------------------------------------------------------------
  // Trainer.fit: the iteration schedule
  // ---------------------------------------------------------------------

  /** The bookkeeping of a `Trainer`: `n_iter` and the two loss lists. */
  datatype TrainerState = TrainerState(nIter: nat, trainLoss: seq<real>, validLoss: seq<real>)

  datatype StopReason = Exhausted | CallbackTerminated | MaxIterReached

  datatype FitOutcome = FitOutcome(state: TrainerState, steps: nat, reason: StopReason)

  /** `n_iter % valid_freq == 0`. A zero frequency never fires: the
      float remainder by zero is NaN, which equals nothing. */
  predicate Due(n: int, freq: int) {
    freq != 0 && n % freq == 0
  }

  /** The counter values in `(low, high]` at which validation and the
      callback run, ascending. */
  function DueRounds(low: nat, high: nat, freq: int): (r: seq<nat>)
    decreases high
  {
    if high <= low then []
    else DueRounds(low, high - 1, freq) + (if Due(high, freq) then [high] else [])
  }

  /** `DueRounds` lists exactly the due counter values in range, ascending. */
  lemma {:induction false} DueRoundsExact(low: nat, high: nat, freq: int)
    ensures forall i :: 0 <= i < |DueRounds(low, high, freq)| ==>
              var n := DueRounds(low, high, freq)[i]; low < n <= high && Due(n, freq)
    ensures forall n :: low < n <= high && Due(n, freq) ==> n in DueRounds(low, high, freq)
    ensures forall i, j :: 0 <= i < j < |DueRounds(low, high, freq)| ==>
              DueRounds(low, high, freq)[i] < DueRounds(low, high, freq)[j]
  {
    if high > low {
      DueRoundsExact(low, high - 1, freq);
    }
  }

  /** The mean validation loss of every due round, in order. */
  function ValidLosses(valid: nat -> real, rounds: seq<nat>): (r: seq<real>)
    ensures |r| == |rounds|
    ensures forall i :: 0 <= i < |rounds| ==> r[i] == valid(rounds[i])
  {
    seq(|rounds|, i requires 0 <= i < |rounds| => valid(rounds[i]))
  }

  lemma ValidLossesAppend(valid: nat -> real, rounds: seq<nat>, extra: seq<nat>)
    ensures ValidLosses(valid, rounds + extra) == ValidLosses(valid, rounds) + ValidLosses(valid, extra)
  {
    assert forall i :: 0 <= i < |rounds| ==> (rounds + extra)[i] == rounds[i];
    assert forall i :: 0 <= i < |extra| ==> (rounds + extra)[|rounds| + i] == extra[i];
  }

  /** One more round extends the training losses by the loss of the next
      batch, and the validation losses by the next round's loss when it
      is due. */
  lemma RoundStep<B>(optimize: (nat, B) -> real, ds: seq<B>, valid: nat -> real, validFreq: int,
                     start: nat, i: nat)
    requires i < |ds|
    ensures var n := start + i + 1;
            && TrainLosses(optimize, ds, start, i + 1) == TrainLosses(optimize, ds, start, i) + [optimize(n, ds[i])]
            && ValidLosses(valid, DueRounds(start, n, validFreq))
               == ValidLosses(valid, DueRounds(start, n - 1, validFreq)) + (if Due(n, validFreq) then [valid(n)] else [])
  {
    var n := start + i + 1;
    var extra := if Due(n, validFreq) then [n] else [];
    assert DueRounds(start, n, validFreq) == DueRounds(start, n - 1, validFreq) + extra;
    ValidLossesAppend(valid, DueRounds(start, n - 1, validFreq), extra);
  }

  /** The training losses of the first `count` batches, starting after
      counter value `start`. */
  function TrainLosses<B>(optimize: (nat, B) -> real, ds: seq<B>, start: nat, count: nat): (r: seq<real>)
    requires count <= |ds|
    ensures |r| == count
    ensures forall i :: 0 <= i < count ==> r[i] == optimize(start + i + 1, ds[i])
  {
    seq(count, i requires 0 <= i < count => optimize(start + i + 1, ds[i]))
  }

  /** The trainer state `callback` sees in round `k` (counting from 0):
      the counter already advanced, the losses of the `k` earlier training
      steps, and the validation losses of every due round so far,
      including this one. */
  function Snapshot<B>(s0: TrainerState, ds: seq<B>, optimize: (nat, B) -> real, hasValid: bool,
                       valid: nat -> real, validFreq: int, k: nat): (r: TrainerState)
    requires k <= |ds|
    ensures r.nIter == s0.nIter + k + 1
    ensures |r.trainLoss| == |s0.trainLoss| + k
    ensures s0.trainLoss <= r.trainLoss && s0.validLoss <= r.validLoss
  {
    TrainerState(s0.nIter + k + 1,
                 s0.trainLoss + TrainLosses(optimize, ds, s0.nIter, k),
                 s0.validLoss
                 + (if hasValid then ValidLosses(valid, DueRounds(s0.nIter, s0.nIter + k + 1, validFreq)) else []))
  }

  /** The trainer state before round `k` (counting from 0): the counter
      not yet advanced, the losses of the first `k` training steps, and the
      validation losses of every due round so far. */
  function Before<B>(s0: TrainerState, ds: seq<B>, optimize: (nat, B) -> real, hasValid: bool,
                     valid: nat -> real, validFreq: int, k: nat): (r: TrainerState)
    requires k <= |ds|
    ensures r.nIter == s0.nIter + k
    ensures |r.trainLoss| == |s0.trainLoss| + k
  {
    TrainerState(s0.nIter + k,
                 s0.trainLoss + TrainLosses(optimize, ds, s0.nIter, k),
                 s0.validLoss
                 + (if hasValid then ValidLosses(valid, DueRounds(s0.nIter, s0.nIter + k, validFreq)) else []))
  }

  /** Round `k` advances the counter, then, when due, appends the
      validation loss (with a validation set) and shows the callback
      `Snapshot(k)`; the training step then appends the next batch's loss,
      giving the state before round `k + 1`. */
  lemma RoundStates<B>(s0: TrainerState, ds: seq<B>, optimize: (nat, B) -> real, hasValid: bool,
                       valid: nat -> real, validFreq: int, k: nat)
    requires k < |ds|
    ensures var n := s0.nIter + k + 1;
            var v := Before(s0, ds, optimize, hasValid, valid, validFreq, k).(nIter := n);
            var w := if Due(n, validFreq) && hasValid then v.(validLoss := v.validLoss + [valid(n)]) else v;
            && (Due(n, validFreq) ==> Snapshot(s0, ds, optimize, hasValid, valid, validFreq, k) == w)
            && Before(s0, ds, optimize, hasValid, valid, validFreq, k + 1)
               == w.(trainLoss := w.trainLoss + [optimize(n, ds[k])])
  {
    RoundStep(optimize, ds, valid, validFreq, s0.nIter, k);
  }

  /** No call of `optimize` happens in `fit`: there are no batches, or the
      first round is due, has no validation set, and its callback stops
      training. */
  predicate NoCallMade<B>(s0: TrainerState, ds: seq<B>, hasValid: bool, validFreq: int,
                          callback: TrainerState -> EarlyStop.Signal)
  {
    || |ds| == 0
    || (Due(s0.nIter + 1, validFreq) && !hasValid
        && callback(s0.(nIter := s0.nIter + 1)) == EarlyStop.Terminate)
  }

  /** The `train` loop of `Trainer.fit` over the batches `ds`, once the
      optimize function passed its check. `binds` says whether calling it
      binds; when it does not, the first call, in the first validation or
      training step, fails with `TypeError`. `valid` is `None` when
      `hasValid` is false; `callback` sees the trainer state at the moment
      it is called. */
  method TrainLoop<B>(
    s0: TrainerState,
    binds: bool,
    ds: seq<B>,
    optimize: (nat, B) -> real,
    hasValid: bool,
    valid: nat -> real,
    validFreq: int,
    maxIter: int,
    callback: TrainerState -> EarlyStop.Signal)
    returns (r: Result<FitOutcome>)
    ensures r.Err? <==> !binds && !NoCallMade(s0, ds, hasValid, validFreq, callback)
    ensures r.Err? ==> r.error == TypeError
    ensures r.Ok? ==> r.value.steps <= |ds|
    ensures r.Ok? && maxIter > 0 ==> r.value.steps <= maxIter
    ensures r.Ok? && r.value.reason != CallbackTerminated ==>
              r.value.state == Before(s0, ds, optimize, hasValid, valid, validFreq, r.value.steps)
    ensures r.Ok? && r.value.reason == Exhausted ==> r.value.steps == |ds|
    ensures r.Ok? && r.value.reason == MaxIterReached ==> maxIter > 0 && r.value.steps == maxIter
    ensures r.Ok? && r.value.reason == CallbackTerminated ==>
              && r.value.steps < |ds|
              && r.value.state == Snapshot(s0, ds, optimize, hasValid, valid, validFreq, r.value.steps)
              && Due(r.value.state.nIter, validFreq) && callback(r.value.state) == EarlyStop.Terminate
    ensures r.Ok? ==>
              forall k :: 0 <= k < r.value.steps && Due(s0.nIter + k + 1, validFreq) ==>
                callback(Snapshot(s0, ds, optimize, hasValid, valid, validFreq, k)) != EarlyStop.Terminate
  {
    var s := s0;
    var i := 0;
    var reason := Exhausted;
    assert Before(s0, ds, optimize, hasValid, valid, validFreq, 0) == s0;
    while i < |ds|
      invariant 0 <= i <= |ds|
      invariant maxIter > 0 ==> i < maxIter
      invariant !binds ==> i == 0
      invariant s == Before(s0, ds, optimize, hasValid, valid, validFreq, i)
      invariant i == 0 ==> s == s0
      invariant forall k :: 0 <= k < i && Due(s0.nIter + k + 1, validFreq) ==>
                  callback(Snapshot(s0, ds, optimize, hasValid, valid, validFreq, k)) != EarlyStop.Terminate
    {
      var n := s.nIter + 1;
      RoundStates(s0, ds, optimize, hasValid, valid, validFreq, i);
      s := s.(nIter := n);
      if Due(n, validFreq) {
        if hasValid {
          if !binds {
            return Err(TypeError);
          }
          s := s.(validLoss := s.validLoss + [valid(n)]);
        }
        if callback(s) == EarlyStop.Terminate {
          reason := CallbackTerminated;
          break;
        }
      }
      if !binds {
        return Err(TypeError);
      }
      s := s.(trainLoss := s.trainLoss + [optimize(n, ds[i])]);
      i := i + 1;
      if maxIter > 0 && i >= maxIter {
        reason := MaxIterReached;
        break;
      }
    }
    return Ok(FitOutcome(s, i, reason));
  }

  /** `Trainer.fit`: the optimize function is checked as written
      (`AssertionError`), then the `train` loop runs; a function the check
      accepts but whose call cannot bind fails with `TypeError` as soon as
      it is first called. Under the corrected check nothing fails. */
  method Fit<B>(
    s0: TrainerState,
    args: seq<string>,
    ds: seq<B>,
    optimize: (nat, B) -> real,
    hasValid: bool,
    valid: nat -> real,
    validFreq: int,
    maxIter: int,
    callback: TrainerState -> EarlyStop.Signal)
    returns (r: Result<FitOutcome>)
    ensures r.Err? <==>
              || ValidateOptimize(args).Err?
              || (StepCall(args).Err? && !NoCallMade(s0, ds, hasValid, validFreq, callback))
    ensures r.Err? ==> r.error == (if ValidateOptimize(args).Err? then AssertionError else TypeError)
    ensures ValidateOptimizeIntended(args).Ok? ==> r.Ok?
    ensures r.Ok? ==> r.value.steps <= |ds|
    ensures r.Ok? && maxIter > 0 ==> r.value.steps <= maxIter
    ensures r.Ok? ==>
              r.value.state.nIter
              == s0.nIter + r.value.steps + (if r.value.reason == CallbackTerminated then 1 else 0)
    ensures r.Ok? ==>
              r.value.state.trainLoss == s0.trainLoss + TrainLosses(optimize, ds, s0.nIter, r.value.steps)
    ensures r.Ok? ==>
              r.value.state.validLoss
              == s0.validLoss
                 + (if hasValid then ValidLosses(valid, DueRounds(s0.nIter, r.value.state.nIter, validFreq)) else [])
    ensures r.Ok? && r.value.reason == Exhausted ==> r.value.steps == |ds|
    ensures r.Ok? && r.value.reason == MaxIterReached ==> maxIter > 0 && r.value.steps == maxIter
    ensures r.Ok? && r.value.reason == CallbackTerminated ==>
              && r.value.steps < |ds|
              && r.value.state == Snapshot(s0, ds, optimize, hasValid, valid, validFreq, r.value.steps)
              && Due(r.value.state.nIter, validFreq) && callback(r.value.state) == EarlyStop.Terminate
    ensures r.Ok? ==>
              forall k :: 0 <= k < r.value.steps && Due(s0.nIter + k + 1, validFreq) ==>
                callback(Snapshot(s0, ds, optimize, hasValid, valid, validFreq, k)) != EarlyStop.Terminate
  {
    IntendedValidationMatchesCall(args);
    var checked := ValidateOptimize(args);
    if checked.Err? {
      return Err(AssertionError);
    }
    r := TrainLoop(s0, StepCall(args).Ok?, ds, optimize, hasValid, valid, validFreq, maxIter, callback);
    if r.Ok? {
      OutcomeFields(s0, ds, optimize, hasValid, valid, validFreq, r.value);
    }
  }

  /** The counter and the losses of a run's final state, whether the run
      ended before a round (`Before`) or inside one, at a callback stop
      (`Snapshot`). */
  lemma OutcomeFields<B>(s0: TrainerState, ds: seq<B>, optimize: (nat, B) -> real, hasValid: bool,
                         valid: nat -> real, validFreq: int, o: FitOutcome)
    requires o.steps <= |ds|
    requires o.reason != CallbackTerminated ==> o.state == Before(s0, ds, optimize, hasValid, valid, validFreq, o.steps)
    requires o.reason == CallbackTerminated ==>
               o.steps < |ds| && o.state == Snapshot(s0, ds, optimize, hasValid, valid, validFreq, o.steps)
    ensures o.state.nIter == s0.nIter + o.steps + (if o.reason == CallbackTerminated then 1 else 0)
    ensures o.state.trainLoss == s0.trainLoss + TrainLosses(optimize, ds, s0.nIter, o.steps)
    ensures o.state.validLoss
            == s0.validLoss
               + (if hasValid then ValidLosses(valid, DueRounds(s0.nIter, o.state.nIter, validFreq)) else [])
  {
  }

  /** With a positive frequency, validation runs once for every multiple of
      the frequency that the counter passes. */
  lemma {:induction false} DueRoundsCount(low: nat, high: nat, freq: int)
    requires freq > 0 && low <= high
    ensures |DueRounds(low, high, freq)| == high / freq - low / freq
  {
    if high > low {
      DueRoundsCount(low, high - 1, freq);
      DivStep(high, freq);
    }
  }

  /** `n / f` grows by one exactly at the multiples of `f`. */
  lemma DivStep(n: nat, f: int)
    requires f > 0 && n > 0
    ensures n / f == (n - 1) / f + (if n % f == 0 then 1 else 0)
  {
    var q, m := (n - 1) / f, (n - 1) % f;
    assert n - 1 == q * f + m;
    if m == f - 1 {
      DivUnique(n, f, q + 1, 0);
    } else {
      DivUnique(n, f, q, m + 1);
    }
  }

  /** Euclidean division is determined by quotient and remainder. */
  lemma DivUnique(n: int, f: int, q: int, m: int)
    requires f > 0 && 0 <= m < f && n == q * f + m
    ensures n / f == q && n % f == m
  {
    var q0, m0 := n / f, n % f;
    assert n == q0 * f + m0;
    assert (q - q0) * f == m0 - m;
    if q > q0 {
      MulAtLeast(q - q0, f);
    } else if q < q0 {
      MulAtLeast(q0 - q, f);
    }
  }

  lemma MulAtLeast(a: int, f: int)
    requires a >= 1 && f > 0
    ensures a * f >= f
  {
    assert a * f == (a - 1) * f + f;
  }
}
