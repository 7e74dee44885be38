/** `SGDSolverMemoryData` of src/pycaffe2.py: the iteration counter, the
    learning-rate schedule, momentum SGD over the network's parameter blobs
    and the sliding window of recent losses.

    The network itself is not modelled. Its parameter blobs are a field of the
    class (`data[layer][blob]`, each blob flattened); the gradients a backward
    pass produces and the output a forward pass returns are inputs of `Step`. */
module Solver {
  import opened Common

  datatype SolverType = SGD | Nesterov | AdaGrad

  /** The fields of Caffe's solver parameters that the class reads. */
  datatype SolverParam = SolverParam(
    lrPolicy: string,
    solverType: SolverType,
    baseLr: real,
    gamma: real,
    power: real,
    stepsize: int,
    maxIter: int,
    snapshot: int,
    display: int,
    momentum: real,
    weightDecay: real)

  /** A gradient entry: a number or NaN. */
  datatype Float = Num(v: real) | NaN

  /** The output of the forward pass, reduced to its squeezed `loss` entry
      (`None` when the network has no such output). */
  datatype NetOutput = NetOutput(loss: Option<real>)

  type Blobs = seq<seq<seq<real>>>
  type Grads = seq<seq<seq<Float>>>
  type Key = (nat, nat)

  /** The constructor's validation: the policy is checked first, then the
      solver type. */
  function CheckParam(p: SolverParam): (r: Result<()>)
    ensures r.Ok? <==> (p.lrPolicy == "step" || p.lrPolicy == "inv") && p.solverType == SGD
    ensures r.Err? ==> r.error.ValueError?
    ensures p.lrPolicy != "step" && p.lrPolicy != "inv" ==> r == Err(ValueError("unsupported learning rate policy"))
  {
    if p.lrPolicy != "step" && p.lrPolicy != "inv" then Err(ValueError("unsupported learning rate policy"))
    else if p.solverType != SGD then Err(ValueError("unsupported solver type"))
    else Ok(())
  }

  // ---------------------------------------------------------------------
  // Learning rate

  /** `g ** n` for a whole exponent. */
  function Pow(g: real, n: nat): real {
    if n == 0 then 1.0 else g * Pow(g, n - 1)
  }

  lemma {:induction false} PowNonneg(g: real, n: nat)
    requires 0.0 <= g
    ensures 0.0 <= Pow(g, n)
  {
    if n > 0 {
      PowNonneg(g, n - 1);
      MulNonneg(g, Pow(g, n - 1));
    }
  }

  lemma MulNonneg(a: real, b: real)
    requires 0.0 <= a && 0.0 <= b
    ensures 0.0 <= a * b
  {
  }

  /** Python's `//` on integers, which rounds toward minus infinity. */
  function FloorDiv(a: int, b: int): (q: int)
    requires b != 0
    ensures b > 0 ==> b * q <= a < b * q + b
    ensures b < 0 ==> b * q + b < a <= b * q
  {
    if b > 0 then a / b else (-a) / (-b)
  }

  /** Python's `%` on integers: the remainder takes the sign of the divisor. */
  function FloorMod(a: int, b: int): (r: int)
    requires b != 0
    ensures b > 0 ==> 0 <= r < b
    ensures b < 0 ==> b < r <= 0
  {
    a - b * FloorDiv(a, b)
  }

  /** A real with no fractional part: what Python's `float.is_integer` tests. */
  predicate IsWhole(x: real) {
    x.Floor as real == x
  }

  /** The base `1.0 + gamma * currIter` of the `inv` policy. */
  function InvBase(p: SolverParam, iter: int): real {
    1.0 + p.gamma * iter as real
  }

  /** `_get_learning_rate(currIter)`.

      `step`: the exponent is `currIter // stepsize` (Python 2 integer
      division, so a zero step size raises `ZeroDivisionError`); `np.floor`
      makes it a numpy float, so the power is numpy's, which never raises:
      `0.0 ** k` for a negative `k` is infinite (`NonFinite` here).

      `inv`: `(1.0 + gamma * currIter) ** (-power)` on Python floats. Python
      raises `ZeroDivisionError` for a zero base and a negative exponent, and
      `ValueError` for a negative base and a fractional exponent; otherwise
      the real power is the parameter `pow`.

      Any other policy raises `RuntimeError`. */
  function LearningRate(p: SolverParam, iter: int, pow: (real, real) -> real): (r: Result<real>)
    ensures r.Err? <==>
      (p.lrPolicy == "step" && (p.stepsize == 0 || (FloorDiv(iter, p.stepsize) < 0 && p.gamma == 0.0))) ||
      (p.lrPolicy == "inv" && InvBase(p, iter) == 0.0 && 0.0 < p.power) ||
      (p.lrPolicy == "inv" && InvBase(p, iter) < 0.0 && !IsWhole(p.power)) ||
      (p.lrPolicy != "step" && p.lrPolicy != "inv")
    ensures r.Err? && p.lrPolicy == "step" ==>
      r.error == (if p.stepsize == 0 then ZeroDivisionError else NonFinite)
    ensures r.Err? && p.lrPolicy == "inv" ==>
      r.error == (if InvBase(p, iter) == 0.0 then ZeroDivisionError else ValueError("negative number cannot be raised to a fractional power"))
    ensures r.Err? && p.lrPolicy != "step" && p.lrPolicy != "inv" ==> r.error.RuntimeError?
  {
    if p.lrPolicy == "step" then
      if p.stepsize == 0 then Err(ZeroDivisionError)
      else
        var k := FloorDiv(iter, p.stepsize);
        if k >= 0 then Ok(p.baseLr * Pow(p.gamma, k))
        else if p.gamma == 0.0 then Err(NonFinite)
        else Ok(p.baseLr * Pow(1.0 / p.gamma, -k))
    else if p.lrPolicy == "inv" then
      var base, e := InvBase(p, iter), -1.0 * p.power;
      if e == 0.0 then Ok(p.baseLr * 1.0)
      else if base == 0.0 then
        if e < 0.0 then Err(ZeroDivisionError) else Ok(p.baseLr * 0.0)
      else if base < 0.0 && !IsWhole(e) then
        WholeNeg(p.power);
        Err(ValueError("negative number cannot be raised to a fractional power"))
      else
        WholeNeg(p.power);
        Ok(p.baseLr * pow(base, e))
    else Err(RuntimeError("unsupported learning rate policy"))
  }

  /** The `inv` policy: a zero `power` gives the base rate, a positive base
      or a whole `power` never raises (except on a zero base), and a zero
      base with a positive `power` raises `ZeroDivisionError`. */
  lemma InvRate(p: SolverParam, iter: int, pow: (real, real) -> real)
    requires p.lrPolicy == "inv"
    ensures p.power == 0.0 ==> LearningRate(p, iter, pow).Ok? && LearningRate(p, iter, pow).value == p.baseLr
    ensures 0.0 < InvBase(p, iter) && p.power != 0.0 ==>
      LearningRate(p, iter, pow).Ok? && LearningRate(p, iter, pow).value == p.baseLr * pow(InvBase(p, iter), -1.0 * p.power)
    ensures IsWhole(p.power) && InvBase(p, iter) != 0.0 ==> LearningRate(p, iter, pow).Ok?
    ensures InvBase(p, iter) == 0.0 && 0.0 < p.power ==> LearningRate(p, iter, pow) == Err(ZeroDivisionError)
  {
  }

  lemma WholeNeg(x: real)
    ensures IsWhole(x) <==> IsWhole(-1.0 * x)
  {
    if IsWhole(x) {
      assert (-x).Floor == -(x.Floor);
    }
    if IsWhole(-1.0 * x) {
      assert x.Floor == -((-x).Floor);
    }
  }

  lemma MulLessCancel(s: int, x: int, y: int)
    requires s > 0 && s * x < s * y
    ensures x < y
  {
  }

  lemma ScaleDown(g: real, x: real)
    requires 0.0 <= g <= 1.0 && 0.0 <= x
    ensures g * x <= x
  {
  }

  /** The exponent of the `step` policy never decreases as training goes on. */
  lemma {:induction false} StepExponentMonotone(i: int, j: int, stepsize: int)
    requires 0 < stepsize && i <= j
    ensures FloorDiv(i, stepsize) <= FloorDiv(j, stepsize)
  {
    var qi, qj := FloorDiv(i, stepsize), FloorDiv(j, stepsize);
    assert stepsize * qi < stepsize * (qj + 1);
    MulLessCancel(stepsize, qi, qj + 1);
  }

  lemma {:induction false} FloorDivUnique(a: int, b: int, q: int)
    requires 0 < b && b * q <= a < b * q + b
    ensures FloorDiv(a, b) == q
  {
    var d := FloorDiv(a, b);
    assert b * d < b * (q + 1);
    MulLessCancel(b, d, q + 1);
    assert b * q < b * (d + 1);
    MulLessCancel(b, q, d + 1);
  }

  /** Under the `step` policy with a positive step size, iteration `iter`
      uses `gamma ** (iter // stepsize)`. */
  lemma StepRate(p: SolverParam, iter: nat, pow: (real, real) -> real)
    requires p.lrPolicy == "step" && 0 < p.stepsize
    ensures 0 <= FloorDiv(iter, p.stepsize)
    ensures LearningRate(p, iter, pow).Ok?
    ensures LearningRate(p, iter, pow).value == p.baseLr * Pow(p.gamma, FloorDiv(iter, p.stepsize))
  {
    var k := FloorDiv(iter, p.stepsize);
    assert p.stepsize * 0 < p.stepsize * (k + 1);
    MulLessCancel(p.stepsize, 0, k + 1);
  }

  /** Under the `step` policy the rate is constant on each block of
      `stepsize` iterations: iteration `k * stepsize + m` uses `gamma ** k`. */
  lemma StepRateConstantInBlocks(p: SolverParam, k: nat, m: nat, pow: (real, real) -> real)
    requires p.lrPolicy == "step" && 0 < p.stepsize && m < p.stepsize
    ensures LearningRate(p, k * p.stepsize + m, pow).Ok?
    ensures LearningRate(p, k * p.stepsize + m, pow).value == p.baseLr * Pow(p.gamma, k)
  {
    var s := p.stepsize;
    var a := k * s + m;
    assert s * k <= a < s * k + s;
    FloorDivUnique(a, s, k);
    StepRate(p, a, pow);
  }

  lemma {:induction false} PowAntitone(g: real, m: nat, n: nat)
    requires 0.0 <= g <= 1.0 && m <= n
    ensures Pow(g, n) <= Pow(g, m)
    decreases n
  {
    if m < n {
      PowAntitone(g, m, n - 1);
      PowNonneg(g, n - 1);
      ScaleDown(g, Pow(g, n - 1));
    }
  }

  /** With `0 <= gamma <= 1` and a non-negative base rate, the `step` schedule
      never increases. */
  lemma StepRateNonIncreasing(p: SolverParam, i: nat, j: nat, pow: (real, real) -> real)
    requires p.lrPolicy == "step" && 0 < p.stepsize && i <= j
    requires 0.0 <= p.gamma <= 1.0 && 0.0 <= p.baseLr
    ensures LearningRate(p, i, pow).Ok? && LearningRate(p, j, pow).Ok?
    ensures LearningRate(p, j, pow).value <= LearningRate(p, i, pow).value
  {
    StepExponentMonotone(i, j, p.stepsize);
    StepRate(p, i, pow);
    StepRate(p, j, pow);
    PowAntitone(p.gamma, FloorDiv(i, p.stepsize), FloorDiv(j, p.stepsize));
  }

  // ---------------------------------------------------------------------
  // Snapshots

  /** `_iter % snapshot == 0` as written: a zero interval (the default of
      Caffe's solver parameters, meaning "no snapshots") divides by zero.
      Python's modulo and Dafny's differ for a negative divisor, but agree on
      whether the remainder is zero. */
  function IsTimeForSnapshotAsWritten(iter: int, snapshot: int): (r: Result<bool>)
    ensures r.Err? <==> snapshot == 0
    ensures r.Ok? ==> r.value == TimeForSnapshot(iter, snapshot)
  {
    if snapshot == 0 then Err(ZeroDivisionError) else Ok(iter % snapshot == 0)
  }

  /** The intended rule, which is Caffe's own: a zero interval never
      snapshots; otherwise snapshot when the interval divides the count. */
  function TimeForSnapshot(iter: int, snapshot: int): (b: bool)
    ensures b <==> snapshot != 0 && FloorMod(iter, snapshot) == 0
  {
    if snapshot == 0 then false
    else
      ModZeroAgree(iter, snapshot);
      iter % snapshot == 0
  }

  /** Python's remainder and Dafny's are zero together. */
  lemma ModZeroAgree(a: int, b: int)
    requires b != 0
    ensures FloorMod(a, b) == 0 <==> a % b == 0
  {
    if b < 0 {
      var q := (-a) / (-b);
      assert FloorMod(a, b) == -((-a) % (-b));
      if a % b == 0 {
        var k := a / b;
        assert -a == (-b) * k;
        DivModUnique(-a, -b, k, 0);
      }
      if (-a) % (-b) == 0 {
        assert a == (-b) * (-q);
        DivModUnique(a, -b, -q, 0);
      }
    }
  }

  /** The discrepancy: with `snapshot == 0` the code raises where no
      snapshot is intended. */
  lemma SnapshotZeroRaises(iter: int)
    ensures IsTimeForSnapshotAsWritten(iter, 0) == Err(ZeroDivisionError)
    ensures !TimeForSnapshot(iter, 0)
  {
  }

  /** Number of snapshot iterations among `1..n`. */
  function SnapshotCount(n: nat, snapshot: int): nat {
    if n == 0 then 0
    else SnapshotCount(n - 1, snapshot) + (if TimeForSnapshot(n, snapshot) then 1 else 0)
  }

  /** With a positive interval `s`, the first `n` iterations take exactly
      `n / s` snapshots; with a zero interval, none. */
  lemma SnapshotCountIsQuotient(n: nat, s: int)
    requires 0 <= s
    ensures SnapshotCount(n, s) == if s == 0 then 0 else n / s
  {
    if s == 0 {
      NoSnapshotsAtZero(n);
    } else {
      var c := SnapshotCount(n, s);
      SnapshotCountBounds(n, s);
      DivModUnique(n, s, c, n - s * c);
    }
  }

  lemma {:induction false} NoSnapshotsAtZero(n: nat)
    ensures SnapshotCount(n, 0) == 0
  {
    if n > 0 {
      NoSnapshotsAtZero(n - 1);
    }
  }

  /** The count `c` of snapshot points in `1..n` is the quotient:
      `s * c <= n < s * c + s`. */
  lemma {:induction false} SnapshotCountBounds(n: nat, s: int)
    requires 0 < s
    ensures s * SnapshotCount(n, s) <= n < s * SnapshotCount(n, s) + s
  {
    if n > 0 {
      SnapshotCountBounds(n - 1, s);
      CountStep(n, s, SnapshotCount(n - 1, s));
    }
  }

  /** One more iteration adds a snapshot point exactly when it reaches the
      next multiple of `s`. */
  lemma CountStep(n: int, s: int, c: int)
    requires 0 < s && s * c <= n - 1 < s * c + s
    ensures n % s == 0 ==> s * (c + 1) <= n < s * (c + 1) + s
    ensures n % s != 0 ==> s * c <= n < s * c + s
  {
    if n % s == 0 {
      var k := n / s;
      assert n == s * k;
      assert s * c < s * k;
      MulLessCancel(s, c, k);
      assert s * k < s * (c + 2);
      MulLessCancel(s, k, c + 2);
    } else if n == s * c + s {
      DivModUnique(n, s, c + 1, 0);
    }
  }

  /** Dafny's `/` and `%` by a positive divisor are the unique quotient and
      remainder. */
  lemma DivModUnique(a: int, s: int, q: int, r: int)
    requires 0 < s && a == s * q + r && 0 <= r < s
    ensures a / s == q && a % s == r
  {
    var q0, r0 := a / s, a % s;
    assert s * q0 + r0 == s * q + r;
    assert s * q0 < s * (q + 1);
    MulLessCancel(s, q0, q + 1);
    assert s * q < s * (q0 + 1);
    MulLessCancel(s, q, q0 + 1);
  }

  // ---------------------------------------------------------------------
  // Progress display

  /** The gate `verbose and iter % display == 1` of `step` as written. A zero
      interval (Caffe's default, meaning "never display") divides by zero,
      and an interval of one never displays, since every count leaves
      remainder 0. */
  function ShowStateAsWritten(iter: int, display: int, verbose: bool): (r: Result<bool>)
    ensures r.Err? <==> verbose && display == 0
    ensures r.Ok? && r.value ==> verbose && 1 < display
  {
    if !verbose then Ok(false)
    else if display == 0 then Err(ZeroDivisionError)
    else Ok(FloorMod(iter, display) == 1)
  }

  /** The intended gate: with a positive interval, display after iterations
      1, 1 + display, 1 + 2 display, ...; otherwise never. */
  function ShowState(iter: int, display: int, verbose: bool): (b: bool)
    ensures b ==> verbose && 0 < display
    ensures verbose && display == 1 ==> b
    ensures verbose && 1 < display ==> (b <==> FloorMod(iter, display) == 1)
  {
    if verbose && 1 < display then ShiftedByOne(iter, display); (iter - 1) % display == 0
    else verbose && 0 < display && (iter - 1) % display == 0
  }

  /** `iter` is one past a multiple of `d` exactly when Python's `iter % d`
      is 1 (for `d > 1`). */
  lemma ShiftedByOne(iter: int, d: int)
    requires 1 < d
    ensures (iter - 1) % d == 0 <==> FloorMod(iter, d) == 1
  {
    var q := FloorDiv(iter, d);
    assert iter == d * q + FloorMod(iter, d);
    if FloorMod(iter, d) == 1 {
      DivModUnique(iter - 1, d, q, 0);
    } else if (iter - 1) % d == 0 {
      var k := (iter - 1) / d;
      assert iter == d * k + 1;
      FloorDivUnique(iter, d, k);
    }
  }

  /** For an interval above one the two gates agree. */
  lemma ShowStateAgreesAboveOne(iter: int, display: int, verbose: bool)
    requires 1 < display
    ensures ShowStateAsWritten(iter, display, verbose) == Ok(ShowState(iter, display, verbose))
  {
  }

  /** The discrepancies: a zero interval raises and an interval of one never
      displays, where the intended gate displays never and always. */
  lemma ShowStateDiscrepancy(iter: int)
    ensures ShowStateAsWritten(iter, 0, true) == Err(ZeroDivisionError) && !ShowState(iter, 0, true)
    ensures ShowStateAsWritten(iter, 1, true) == Ok(false) && ShowState(iter, 1, true)
  {
    assert FloorMod(iter, 1) == 0;
  }

  // ---------------------------------------------------------------------
  // Loss history

  /** `if loss: append(float(loss))`: a missing or zero loss is not recorded. */
  function Recorded(hist: seq<real>, loss: Option<real>): seq<real> {
    if loss.Some? && loss.value != 0.0 then hist + [loss.value] else hist
  }

  /** The last `n` entries of `s` (all of them when there are fewer). */
  function LastN(s: seq<real>, n: nat): (r: seq<real>)
    ensures |r| <= n && |r| <= |s|
    ensures |s| <= n ==> r == s
    ensures n <= |s| ==> |r| == n
    ensures r == s[|s| - |r|..]
  {
    if |s| <= n then s else s[|s| - n..]
  }

  /** The recorded losses of a run, in order. */
  function Truthy(losses: seq<Option<real>>): seq<real> {
    if |losses| == 0 then []
    else Recorded(Truthy(losses[..|losses| - 1]), losses[|losses| - 1])
  }

  /** The history after every `_step` of a run, from the empty history. */
  function History(losses: seq<Option<real>>, n: nat): seq<real> {
    if |losses| == 0 then []
    else LastN(Recorded(History(losses[..|losses| - 1], n), losses[|losses| - 1]), n)
  }

  lemma LastNOfLastN(s: seq<real>, x: Option<real>, n: nat)
    ensures LastN(Recorded(LastN(s, n), x), n) == LastN(Recorded(s, x), n)
  {
    if x.Some? && x.value != 0.0 && n < |s| {
      var t := s[|s| - n..];
      assert LastN(s, n) == t && |t| == n;
      assert Recorded(t, x) == t + [x.value];
      assert Recorded(s, x) == s + [x.value];
      assert LastN(t + [x.value], n) == (t + [x.value])[1..];
      assert LastN(s + [x.value], n) == (s + [x.value])[|s| + 1 - n..];
      assert (s + [x.value])[|s| + 1 - n..] == (t + [x.value])[1..];
    }
  }

  /** The window holds the last `nHist` truthy losses of the whole run. */
  lemma {:induction false} HistoryIsLastTruthy(losses: seq<Option<real>>, n: nat)
    ensures History(losses, n) == LastN(Truthy(losses), n)
  {
    if |losses| > 0 {
      var init, last := losses[..|losses| - 1], losses[|losses| - 1];
      HistoryIsLastTruthy(init, n);
      LastNOfLastN(Truthy(init), last, n);
    }
  }

  // ---------------------------------------------------------------------
  // Momentum update

  function Zeros(n: nat): (z: seq<real>)
    ensures |z| == n && forall i :: 0 <= i < n ==> z[i] == 0.0
  {
    seq(n, i => 0.0)
  }

  /** The gradient of a NaN-free blob as reals. */
  function Values(g: seq<Float>): (r: seq<real>)
    requires NaN !in g
    ensures |r| == |g|
  {
    seq(|g|, i requires 0 <= i < |g| => assert g[i] in g; g[i].v)
  }

  /** `self._V.get(key, 0.0)`: the stored velocity, or zeros. */
  function Velocity(V: map<Key, seq<real>>, key: Key, n: nat): (v: seq<real>)
    requires key in V ==> |V[key]| == n
    ensures |v| == n
  {
    if key in V then V[key] else Zeros(n)
  }

  /** `momentum * V - alpha * diff`. */
  function NextVelocity(mu: real, v: seq<real>, alpha: real, g: seq<real>): (vn: seq<real>)
    requires |v| == |g|
    ensures |vn| == |g|
  {
    seq(|g|, i requires 0 <= i < |g| => mu * v[i] - alpha * g[i])
  }

  /** `data += Vnext`, then `data *= (1 - alpha * decay)` when `decay > 0`. */
  function NextData(w: seq<real>, vn: seq<real>, alpha: real, decay: real): (w': seq<real>)
    requires |w| == |vn|
    ensures |w'| == |w|
  {
    seq(|w|, i requires 0 <= i < |w| => if decay > 0.0 then (w[i] + vn[i]) * (1.0 - alpha * decay) else w[i] + vn[i])
  }

  /** On the first visit of a blob (no stored velocity) and without decay,
      the update is a plain gradient step `w - alpha * diff`. */
  lemma FirstVisitIsGradientStep(V: map<Key, seq<real>>, key: Key, mu: real, alpha: real, w: seq<real>, g: seq<real>)
    requires key !in V && |w| == |g|
    ensures var vn := NextVelocity(mu, Velocity(V, key, |g|), alpha, g);
      forall i :: 0 <= i < |g| ==> vn[i] == -alpha * g[i] && NextData(w, vn, alpha, 0.0)[i] == w[i] - alpha * g[i]
  {
  }

  /** Caffe folds weight decay into the gradient: `w + mu v - alpha (g + decay w)`.
      The decay applied after the momentum step here differs from that by
      `alpha * decay * Vnext`. */
  lemma DecayAfterMomentum(w: seq<real>, v: seq<real>, g: seq<real>, mu: real, alpha: real, decay: real)
    requires |w| == |v| == |g| && decay > 0.0
    ensures var vn := NextVelocity(mu, v, alpha, g);
      forall i :: 0 <= i < |w| ==>
        NextData(w, vn, alpha, decay)[i] == w[i] + mu * v[i] - alpha * (g[i] + decay * w[i]) - alpha * decay * vn[i]
  {
  }

  /** Every blob gradient has the shape of its parameter blob. */
  predicate Shaped(data: Blobs, diff: Grads) {
    |data| == |diff| &&
    forall l :: 0 <= l < |diff| ==>
      |data[l]| == |diff[l]| && forall b :: 0 <= b < |diff[l]| ==> |data[l][b]| == |diff[l][b]|
  }

  /** Every stored velocity belongs to a blob and has its length. */
  predicate VelocitiesFit(V: map<Key, seq<real>>, data: Blobs) {
    forall key :: key in V ==> key.0 < |data| && key.1 < |data[key.0]| && |V[key]| == |data[key.0][key.1]|
  }

  /** `(l, b)` comes strictly before `(L, B)` in the loops' order over layers
      and their blobs. */
  predicate Before(l: nat, b: nat, L: nat, B: nat) {
    l < L || (l == L && b < B)
  }

  predicate IsBlob(diff: Grads, key: Key) {
    key.0 < |diff| && key.1 < |diff[key.0]|
  }

  /** `(l, b)` is the first blob, in the loops' order, whose gradient holds a NaN. */
  ghost predicate IsFirstNaN(diff: Grads, l: nat, b: nat) {
    IsBlob(diff, (l, b)) && NaN in diff[l][b] &&
    forall l': nat, b': nat :: IsBlob(diff, (l', b')) && Before(l', b', l, b) ==> NaN !in diff[l'][b']
  }

  ghost predicate NoNaN(diff: Grads) {
    forall l: nat, b: nat :: IsBlob(diff, (l, b)) ==> NaN !in diff[l][b]
  }

  /** The blobs and velocities after the loop of `_step` has updated every
      blob before `(L, B)`: those have their momentum update and a stored
      velocity, every other blob and velocity is as it was. */
  ghost predicate UpdatedBefore(p: SolverParam, alpha: real, data0: Blobs, V0: map<Key, seq<real>>, diff: Grads,
                                data: Blobs, V: map<Key, seq<real>>, L: nat, B: nat)
    requires Shaped(data0, diff) && VelocitiesFit(V0, data0)
  {
    Shaped(data, diff) &&
    BlobsUpdatedBefore(p, alpha, data0, V0, diff, data, V, L, B) &&
    KeysUpdatedBefore(V0, diff, V, L, B)
  }

  /** The blob part: a blob before `(L, B)` holds its update and its new
      velocity is stored; a later blob is as it was. */
  ghost predicate BlobsUpdatedBefore(p: SolverParam, alpha: real, data0: Blobs, V0: map<Key, seq<real>>, diff: Grads,
                                     data: Blobs, V: map<Key, seq<real>>, L: nat, B: nat)
    requires Shaped(data0, diff) && VelocitiesFit(V0, data0) && Shaped(data, diff)
  {
    forall l: nat, b: nat :: IsBlob(diff, (l, b)) ==>
      if Before(l, b, L, B) then
        NaN !in diff[l][b] && (l, b) in V &&
        var vn := NextVelocity(p.momentum, Velocity(V0, (l, b), |data0[l][b]|), alpha, Values(diff[l][b]));
        V[(l, b)] == vn && data[l][b] == NextData(data0[l][b], vn, alpha, p.weightDecay)
      else data[l][b] == data0[l][b]
  }

  /** The key part: the stored keys are the old ones plus the blobs before
      `(L, B)`, and the velocity of any other key is as it was. */
  ghost predicate KeysUpdatedBefore(V0: map<Key, seq<real>>, diff: Grads, V: map<Key, seq<real>>, L: nat, B: nat) {
    (forall key :: key in V <==> key in V0 || (IsBlob(diff, key) && Before(key.0, key.1, L, B))) &&
    (forall key :: key in V0 && !(IsBlob(diff, key) && Before(key.0, key.1, L, B)) ==> V[key] == V0[key])
  }

  lemma NothingUpdatedYet(p: SolverParam, alpha: real, data0: Blobs, V0: map<Key, seq<real>>, diff: Grads)
    requires Shaped(data0, diff) && VelocitiesFit(V0, data0)
    ensures UpdatedBefore(p, alpha, data0, V0, diff, data0, V0, 0, 0)
  {
  }

  /** Every blob updated so far had a NaN-free gradient. */
  lemma CleanBefore(p: SolverParam, alpha: real, data0: Blobs, V0: map<Key, seq<real>>, diff: Grads,
                    data: Blobs, V: map<Key, seq<real>>, L: nat, B: nat)
    requires Shaped(data0, diff) && VelocitiesFit(V0, data0)
    requires UpdatedBefore(p, alpha, data0, V0, diff, data, V, L, B)
    ensures forall l: nat, b: nat :: IsBlob(diff, (l, b)) && Before(l, b, L, B) ==> NaN !in diff[l][b]
  {
  }

  /** One turn of the inner loop: blob `(l, b)` gets its update. */
  lemma UpdateOne(p: SolverParam, alpha: real, data0: Blobs, V0: map<Key, seq<real>>, diff: Grads,
                  data: Blobs, V: map<Key, seq<real>>, l: nat, b: nat)
    requires Shaped(data0, diff) && VelocitiesFit(V0, data0) && VelocitiesFit(V, data)
    requires UpdatedBefore(p, alpha, data0, V0, diff, data, V, l, b)
    requires IsBlob(diff, (l, b)) && NaN !in diff[l][b]
    ensures data[l][b] == data0[l][b]
    ensures Velocity(V, (l, b), |data[l][b]|) == Velocity(V0, (l, b), |data0[l][b]|)
    ensures var vn := NextVelocity(p.momentum, Velocity(V, (l, b), |data[l][b]|), alpha, Values(diff[l][b]));
      var data' := data[l := data[l][b := NextData(data[l][b], vn, alpha, p.weightDecay)]];
      UpdatedBefore(p, alpha, data0, V0, diff, data', V[(l, b) := vn], l, b + 1) &&
      VelocitiesFit(V[(l, b) := vn], data')
  {
    assert !Before(l, b, l, b);
    var vn := NextVelocity(p.momentum, Velocity(V, (l, b), |data[l][b]|), alpha, Values(diff[l][b]));
    var data' := data[l := data[l][b := NextData(data[l][b], vn, alpha, p.weightDecay)]];
    UpdateOneBlob(p, alpha, data0, V0, diff, data, V, l, b, vn, data');
    UpdateOneKey(V0, diff, V, l, b, vn);
  }

  lemma UpdateOneBlob(p: SolverParam, alpha: real, data0: Blobs, V0: map<Key, seq<real>>, diff: Grads,
                      data: Blobs, V: map<Key, seq<real>>, l: nat, b: nat, vn: seq<real>, data': Blobs)
    requires Shaped(data0, diff) && VelocitiesFit(V0, data0) && Shaped(data, diff)
    requires BlobsUpdatedBefore(p, alpha, data0, V0, diff, data, V, l, b)
    requires IsBlob(diff, (l, b)) && NaN !in diff[l][b] && data[l][b] == data0[l][b]
    requires vn == NextVelocity(p.momentum, Velocity(V0, (l, b), |data0[l][b]|), alpha, Values(diff[l][b]))
    requires data' == data[l := data[l][b := NextData(data[l][b], vn, alpha, p.weightDecay)]]
    ensures Shaped(data', diff)
    ensures BlobsUpdatedBefore(p, alpha, data0, V0, diff, data', V[(l, b) := vn], l, b + 1)
  {
    var V' := V[(l, b) := vn];
    assert Shaped(data', diff) by {
      forall l' | 0 <= l' < |diff|
        ensures |data'[l']| == |diff[l']|
        ensures forall b' :: 0 <= b' < |diff[l']| ==> |data'[l'][b']| == |diff[l'][b']|
      {
      }
    }
    forall l': nat, b': nat | IsBlob(diff, (l', b'))
      ensures if Before(l', b', l, b + 1) then
          NaN !in diff[l'][b'] && (l', b') in V' &&
          var vn' := NextVelocity(p.momentum, Velocity(V0, (l', b'), |data0[l'][b']|), alpha, Values(diff[l'][b']));
          V'[(l', b')] == vn' && data'[l'][b'] == NextData(data0[l'][b'], vn', alpha, p.weightDecay)
        else data'[l'][b'] == data0[l'][b']
    {
      if l' == l && b' == b {
      } else {
        assert data'[l'][b'] == data[l'][b'];
      }
    }
  }

  lemma UpdateOneKey(V0: map<Key, seq<real>>, diff: Grads, V: map<Key, seq<real>>, l: nat, b: nat, vn: seq<real>)
    requires KeysUpdatedBefore(V0, diff, V, l, b) && IsBlob(diff, (l, b))
    ensures KeysUpdatedBefore(V0, diff, V[(l, b) := vn], l, b + 1)
  {
  }

  /** Moving from the end of layer `l` to the start of layer `l + 1`. */
  lemma NextLayer(p: SolverParam, alpha: real, data0: Blobs, V0: map<Key, seq<real>>, diff: Grads,
                  data: Blobs, V: map<Key, seq<real>>, l: nat)
    requires Shaped(data0, diff) && VelocitiesFit(V0, data0)
    requires l < |diff| && UpdatedBefore(p, alpha, data0, V0, diff, data, V, l, |diff[l]|)
    ensures UpdatedBefore(p, alpha, data0, V0, diff, data, V, l + 1, 0)
  {
    assert forall l': nat, b': nat :: IsBlob(diff, (l', b')) ==> (Before(l', b', l, |diff[l]|) <==> Before(l', b', l + 1, 0));
  }

  /** The exception `print_state` raises at count `iter`, if any: it prints
      the learning rate at that count. An infinite rate (`NonFinite`) is
      printed, not raised. */
  function PrintStateError(p: SolverParam, iter: int, pow: (real, real) -> real): Option<Error> {
    var rate := LearningRate(p, iter, pow);
    if rate.Err? && rate.error != NonFinite then Some(rate.error) else None
  }

  /** `print_state` can raise after a `_step` that succeeded: under `inv`
      with `gamma = -0.25` and `power = 1`, the rate at count 3 exists, but
      at count 4 the base `1 - 0.25 * 4` is zero. */
  lemma PrintStateCanRaise(p: SolverParam, pow: (real, real) -> real)
    requires p.lrPolicy == "inv" && p.gamma == -0.25 && p.power == 1.0
    ensures LearningRate(p, 3, pow).Ok?
    ensures PrintStateError(p, 4, pow) == Some(ZeroDivisionError)
  {
    assert InvBase(p, 3) == 0.25;
    assert InvBase(p, 4) == 0.0;
  }

  /** What one `_step` leaves behind, given the learning rate it computed:
      a failing rate changes nothing; a NaN gradient leaves the blobs before
      the first NaN updated and the loss window alone; otherwise every blob
      is updated and the window records the loss. */
  ghost predicate StepEffect(p: SolverParam, rate: Result<real>, nHist: nat,
                             data0: Blobs, V0: map<Key, seq<real>>, hist0: seq<real>, diff: Grads, out: NetOutput,
                             data: Blobs, V: map<Key, seq<real>>, hist: seq<real>)
    requires Shaped(data0, diff) && VelocitiesFit(V0, data0)
  {
    (rate.Err? ==> data == data0 && V == V0 && hist == hist0) &&
    (rate.Ok? && !NoNaN(diff) ==>
       hist == hist0 &&
       exists l, b :: IsFirstNaN(diff, l, b) && UpdatedBefore(p, rate.value, data0, V0, diff, data, V, l, b)) &&
    (rate.Ok? && NoNaN(diff) ==>
       UpdatedBefore(p, rate.value, data0, V0, diff, data, V, |diff|, 0) &&
       hist == LastN(Recorded(hist0, out.loss), nHist))
  }

  class SGDSolverMemoryData {
    const param: SolverParam
    const verbose: bool
    const nHist: nat := 30
    var iter: nat
    var V: map<Key, seq<real>>
    var lastLossN: seq<real>
    var data: Blobs

    ghost predicate Valid()
      reads this
    {
      CheckParam(param).Ok? &&
      |lastLossN| <= nHist &&
      (forall i :: 0 <= i < |lastLossN| ==> lastLossN[i] != 0.0) &&
      VelocitiesFit(V, data)
    }

    /** `__init__` for parameters it accepts: iteration 0, no velocities,
        an empty loss history. */
    constructor (param: SolverParam, verbose: bool, data: Blobs)
      requires CheckParam(param).Ok?
      ensures Valid()
      ensures this.param == param && this.verbose == verbose && this.data == data
      ensures iter == 0 && V == map[] && lastLossN == []
    {
      this.param := param;
      this.verbose := verbose;
      this.data := data;
      iter := 0;
      V := map[];
      lastLossN := [];
    }

    /** `__init__` with its validation: `ValueError` unless the policy is
        `step` or `inv` and the solver type is SGD. */
    static method Create(param: SolverParam, verbose: bool, data: Blobs) returns (r: Result<SGDSolverMemoryData>)
      ensures r.Err? <==> CheckParam(param).Err?
      ensures r.Err? ==> r.error == CheckParam(param).error
      ensures r.Ok? ==> fresh(r.value) && r.value.Valid()
      ensures r.Ok? ==> r.value.param == param && r.value.verbose == verbose && r.value.data == data
      ensures r.Ok? ==> r.value.iter == 0 && r.value.V == map[] && r.value.lastLossN == []
    {
      var check := CheckParam(param);
      if check.Err? {
        return Err(check.error);
      }
      var s := new SGDSolverMemoryData(param, verbose, data);
      return Ok(s);
    }

    /** `is_training_complete`. */
    predicate IsTrainingComplete()
      reads this
    {
      iter >= param.maxIter
    }

    /** `is_time_for_snapshot`, with a zero interval meaning "never": it
        agrees with the source wherever the source does not raise. */
    predicate IsTimeForSnapshot()
      reads this
      ensures IsTimeForSnapshot() ==> param.snapshot != 0
      ensures param.snapshot != 0 ==> (IsTimeForSnapshot() <==> IsTimeForSnapshotAsWritten(iter, param.snapshot) == Ok(true))
    {
      TimeForSnapshot(iter, param.snapshot)
    }

    /** The loss bookkeeping of `_step`: append a truthy loss, then pop from
        the front until at most `nHist` remain. */
    method RecordLoss(loss: Option<real>)
      requires Valid()
      modifies this
      ensures Valid()
      ensures lastLossN == LastN(Recorded(old(lastLossN), loss), nHist)
      ensures iter == old(iter) && V == old(V) && data == old(data)
    {
      var h := lastLossN;
      if loss.Some? && loss.value != 0.0 {
        h := h + [loss.value];
      }
      assert h == Recorded(lastLossN, loss);
      assert forall i :: 0 <= i < |h| ==> h[i] != 0.0;
      var w := h;
      while |w| > nHist
        invariant |w| <= |h| && w == h[|h| - |w|..]
        invariant |w| < |h| ==> nHist <= |w|
        decreases |w|
      {
        w := w[1..];
      }
      lastLossN := w;
    }

    /** The loop of `_step` over layers and their blobs: each NaN-free blob
        gets its momentum update and weight decay, and the first blob whose
        gradient holds a NaN stops the loop, leaving the earlier updates in
        place. `nanAt` names that blob. */
    method UpdateBlobs(diff: Grads, alpha: real) returns (nanAt: Option<Key>)
      requires Valid() && Shaped(data, diff)
      modifies this
      ensures Valid()
      ensures iter == old(iter) && lastLossN == old(lastLossN)
      ensures nanAt.None? <==> NoNaN(diff)
      ensures nanAt.None? ==> UpdatedBefore(param, alpha, old(data), old(V), diff, data, V, |diff|, 0)
      ensures nanAt.Some? ==>
        IsFirstNaN(diff, nanAt.value.0, nanAt.value.1) &&
        UpdatedBefore(param, alpha, old(data), old(V), diff, data, V, nanAt.value.0, nanAt.value.1)
    {
      ghost var data0, V0 := data, V;
      var d: Blobs, vel: map<Key, seq<real>> := data, V;
      NothingUpdatedYet(param, alpha, data0, V0, diff);
      var l := 0;
      while l < |diff|
        invariant l <= |diff| && VelocitiesFit(vel, d) && unchanged(this)
        invariant UpdatedBefore(param, alpha, data0, V0, diff, d, vel, l, 0)
      {
        var b := 0;
        while b < |diff[l]|
          invariant b <= |diff[l]| && VelocitiesFit(vel, d) && unchanged(this)
          invariant UpdatedBefore(param, alpha, data0, V0, diff, d, vel, l, b)
        {
          if NaN in diff[l][b] {
            CleanBefore(param, alpha, data0, V0, diff, d, vel, l, b);
            data, V := d, vel;
            return Some((l, b));
          }
          UpdateOne(param, alpha, data0, V0, diff, d, vel, l, b);
          var vn := NextVelocity(param.momentum, Velocity(vel, (l, b), |d[l][b]|), alpha, Values(diff[l][b]));
          d := d[l := d[l][b := NextData(d[l][b], vn, alpha, param.weightDecay)]];
          vel := vel[(l, b) := vn];
          b := b + 1;
        }
        NextLayer(param, alpha, data0, V0, diff, d, vel, l);
        l := l + 1;
      }
      data, V := d, vel;
      CleanBefore(param, alpha, data0, V0, diff, data, V, |diff|, 0);
      return None;
    }

    /** `_step(X, y, currIter)`: the learning rate at `currIter`, the blob
        updates and the loss window. A failing rate changes nothing; a NaN
        gradient raises `RuntimeError`, leaving the blobs updated before it
        and the loss window alone. The counter is not touched. */
    method SgdStep(diff: Grads, out: NetOutput, currIter: int, pow: (real, real) -> real) returns (r: Result<NetOutput>)
      requires Valid() && Shaped(data, diff)
      modifies this
      ensures Valid() && iter == old(iter)
      ensures var rate := LearningRate(param, currIter, pow);
        StepEffect(param, rate, nHist, old(data), old(V), old(lastLossN), diff, out, data, V, lastLossN) &&
        (r.Ok? <==> rate.Ok? && NoNaN(diff)) &&
        (rate.Err? ==> r == Err(rate.error)) &&
        (rate.Ok? && r.Err? ==> r.error.RuntimeError?) &&
        (r.Ok? ==> r.value == out)
    {
      var rate := LearningRate(param, currIter, pow);
      if rate.Err? {
        return Err(rate.error);
      }
      var nanAt := UpdateBlobs(diff, rate.value);
      if nanAt.Some? {
        return Err(RuntimeError("NaN detected in gradient"));
      }
      RecordLoss(out.loss);
      return Ok(out);
    }

    /** `step` with the intended display gate (`ShowState`): one `_step` at
        the current iteration; once it completes the counter moves on by one,
        and when progress is shown `print_state` may still raise. `show`
        says whether the gate fired. */
    method Step(diff: Grads, out: NetOutput, pow: (real, real) -> real) returns (r: Result<NetOutput>, show: bool)
      requires Valid() && Shaped(data, diff)
      modifies this
      ensures Valid()
      ensures var rate := LearningRate(param, old(iter), pow);
        var completed := rate.Ok? && NoNaN(diff);
        StepEffect(param, rate, nHist, old(data), old(V), old(lastLossN), diff, out, data, V, lastLossN) &&
        iter == (if completed then old(iter) + 1 else old(iter)) &&
        (rate.Err? ==> r == Err(rate.error)) &&
        (rate.Ok? && !completed ==> r.Err? && r.error.RuntimeError?) &&
        (show <==> completed && ShowState(iter, param.display, verbose)) &&
        (completed && show && PrintStateError(param, iter, pow).Some? ==> r == Err(PrintStateError(param, iter, pow).value)) &&
        (completed && !(show && PrintStateError(param, iter, pow).Some?) ==> r == Ok(out))
      ensures old(IsTrainingComplete()) ==> IsTrainingComplete()
    {
      r := SgdStep(diff, out, iter, pow);
      if r.Err? {
        return r, false;
      }
      iter := iter + 1;
      show := ShowState(iter, param.display, verbose);
      var failure := PrintStateError(param, iter, pow);
      if show && failure.Some? {
        r := Err(failure.value);
      }
    }

    /** `step` as written: the gate `verbose and iter % display == 1` is
        evaluated after `_step` has updated the blobs and the counter has
        moved on, so with `verbose` and `display == 0` the step completes
        and then raises `ZeroDivisionError`; when the gate fires,
        `print_state` may raise as well. */
    method StepAsWritten(diff: Grads, out: NetOutput, pow: (real, real) -> real) returns (r: Result<NetOutput>, show: bool)
      requires Valid() && Shaped(data, diff)
      modifies this
      ensures Valid()
      ensures var rate := LearningRate(param, old(iter), pow);
        var completed := rate.Ok? && NoNaN(diff);
        StepEffect(param, rate, nHist, old(data), old(V), old(lastLossN), diff, out, data, V, lastLossN) &&
        iter == (if completed then old(iter) + 1 else old(iter)) &&
        (rate.Err? ==> r == Err(rate.error)) &&
        (rate.Ok? && !completed ==> r.Err? && r.error.RuntimeError?) &&
        (show <==> completed && ShowStateAsWritten(iter, param.display, verbose) == Ok(true)) &&
        (completed && verbose && param.display == 0 ==> r == Err(ZeroDivisionError)) &&
        (completed && show && PrintStateError(param, iter, pow).Some? ==> r == Err(PrintStateError(param, iter, pow).value)) &&
        (completed && !(verbose && param.display == 0) && !(show && PrintStateError(param, iter, pow).Some?) ==> r == Ok(out))
    {
      r := SgdStep(diff, out, iter, pow);
      if r.Err? {
        return r, false;
      }
      iter := iter + 1;
      var gate := ShowStateAsWritten(iter, param.display, verbose);
      if gate.Err? {
        return Err(gate.error), false;
      }
      show := gate.value;
      if show {
        var failure := PrintStateError(param, iter, pow);
        if failure.Some? {
          r := Err(failure.value);
        }
      }
    }
  }
}
