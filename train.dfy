/** `train_one_epoch` of src/emcnn.py: for every minibatch the pixel generator
    yields, fill the tiles, optionally apply a random symmetry, take one
    solver step, take a snapshot when one is due, and stop early once
    training is complete.

    The generator, the random choice of symmetry and the network's forward
    and backward passes are not modelled: each round of the loop is given as
    the voxels the generator yields, the symmetry drawn (if augmenting), and
    the gradients and output the network produces. Saving a snapshot is
    recorded as the iteration at which it is taken. */
module Train {
  import opened Common
  import opened Volume
  import opened Tiles
  import Border
  import Symmetry
  import opened Solver

  datatype Round = Round(idx: seq<Voxel>, op: Option<Symmetry.Op>, diff: Grads, out: NetOutput)

  /** The iterations in `from + 1 .. to` at which a snapshot is due, in order. */
  function SnapshotsBetween(from: nat, to: nat, snapshot: int): seq<nat>
    decreases to
  {
    if to <= from then []
    else SnapshotsBetween(from, to - 1, snapshot) + (if TimeForSnapshot(to, snapshot) then [to] else [])
  }

  /** From the start, the snapshots of the first `n` iterations are as many
      as the snapshot count says: `n / snapshot` of them for a positive
      interval, none for a zero one. */
  lemma {:induction false} SnapshotsBetweenCount(n: nat, snapshot: int)
    ensures |SnapshotsBetween(0, n, snapshot)| == SnapshotCount(n, snapshot)
    ensures 0 <= snapshot ==> |SnapshotsBetween(0, n, snapshot)| == if snapshot == 0 then 0 else n / snapshot
  {
    if n > 0 {
      SnapshotsBetweenCount(n - 1, snapshot);
    }
    if 0 <= snapshot {
      SnapshotCountIsQuotient(n, snapshot);
    }
  }

  /** The shapes of the parameter blobs do not depend on their values. */
  lemma ShapedTransfer(data0: Blobs, data1: Blobs, diff0: Grads, diff1: Grads)
    requires Shaped(data0, diff0) && Shaped(data1, diff0) && Shaped(data0, diff1)
    ensures Shaped(data1, diff1)
  {
  }

  /** The fill raises for a round: something to copy, and either no
      channel 0 in `Xi` or a window that does not broadcast into its tiles. */
  predicate FillFails(idx: seq<Voxel>, radius: nat, channels: nat, rows: nat, cols: nat) {
    0 < |idx| && (channels == 0 || !WindowFits(radius, rows, cols))
  }

  /** Round `round`'s solver step completes at count `iter`, for tiles of
      `channels` channels of `rows` by `cols` and a window of `radius`: the
      fill does not fail and `_step` neither fails on the rate nor meets a
      NaN. */
  ghost predicate StepCompletes(p: SolverParam, iter: int, round: Round, radius: nat, channels: nat, rows: nat, cols: nat,
                                pow: (real, real) -> real) {
    !FillFails(round.idx, radius, channels, rows, cols) &&
    LearningRate(p, iter, pow).Ok? && NoNaN(round.diff)
  }

  /** How a round that starts at count `k` ends, with the counter at
      `iterAfter` and the outcome `r`: the counter moves on iff the solver
      step completes; a failing fill raises its `IndexError` or
      `ValueError`; otherwise `_step` raises the rate's error or the NaN
      `RuntimeError`; and a completed step ends with the error of
      `print_state` when the display gate fires and the rate at the new
      count raises, and without error otherwise. */
  ghost predicate RoundEnded(p: SolverParam, verbose: bool, k: int, round: Round, radius: nat, channels: nat, rows: nat, cols: nat,
                             pow: (real, real) -> real, iterAfter: int, r: Result<()>) {
    var fillFails := FillFails(round.idx, radius, channels, rows, cols);
    var rate := LearningRate(p, k, pow);
    var completed := StepCompletes(p, k, round, radius, channels, rows, cols, pow);
    iterAfter == (if completed then k + 1 else k) &&
    (fillFails ==> r == Err(if channels == 0 then IndexError else ValueError("could not broadcast window into tile"))) &&
    (!fillFails && rate.Err? ==> r == Err(rate.error)) &&
    (!fillFails && rate.Ok? && !NoNaN(round.diff) ==> r.Err? && r.error.RuntimeError?) &&
    (completed ==>
       r == if ShowState(k + 1, p.display, verbose) && PrintStateError(p, k + 1, pow).Some?
            then Err(PrintStateError(p, k + 1, pow).value) else Ok(()))
  }

  /** One turn of the loop: fill the tiles, apply the symmetry drawn (if
      any) and take one solver step. `xi2` is the minibatch handed to the
      solver: `xi` itself, or the fresh transformed copy. A failed fill
      raises before anything is written and before the solver is touched. */
  method TrainRound(solver: SGDSolverMemoryData, x: array3<real>, y: array3<int>, radius: nat,
                    xi: array4<real>, yi: array<int>, round: Round, pow: (real, real) -> real)
    returns (r: Result<()>, xi2: array4<real>)
    requires solver.Valid() && SameShape(x, y)
    requires xi.Length0 == yi.Length && |round.idx| <= xi.Length0
    requires round.op.Some? ==> xi.Length2 == xi.Length3
    requires Shaped(solver.data, round.diff)
    requires forall j :: 0 <= j < |round.idx| ==> Interior(x, round.idx[j], radius)
    modifies solver, xi, yi
    ensures xi2.Length0 == xi.Length0 && xi2.Length1 == xi.Length1
    ensures xi2.Length2 == xi.Length2 && xi2.Length3 == xi.Length3
    ensures solver.Valid()
    ensures FillFails(round.idx, radius, xi.Length1, xi.Length2, xi.Length3) ==>
      xi2 == xi && unchanged(xi) && unchanged(yi) && unchanged(solver)
    ensures !FillFails(round.idx, radius, xi.Length1, xi.Length2, xi.Length3) ==>
      Filled(x, y, round.idx, radius, xi, yi) &&
      (round.op.None? ==> xi2 == xi) &&
      (round.op.Some? ==>
         fresh(xi2) &&
         forall s, ch :: 0 <= s < xi.Length0 && 0 <= ch < xi.Length1 ==>
           Symmetry.TileAt(xi2, s, ch) == Symmetry.Apply(round.op.value, Symmetry.TileAt(xi, s, ch)))
    ensures !FillFails(round.idx, radius, xi.Length1, xi.Length2, xi.Length3) ==>
      StepEffect(solver.param, LearningRate(solver.param, old(solver.iter), pow), solver.nHist,
                 old(solver.data), old(solver.V), old(solver.lastLossN),
                 round.diff, round.out, solver.data, solver.V, solver.lastLossN)
    ensures RoundEnded(solver.param, solver.verbose, old(solver.iter), round, radius, xi.Length1, xi.Length2, xi.Length3,
                       pow, solver.iter, r)
    ensures r.Ok? ==> solver.iter == old(solver.iter) + 1
    ensures r.Ok? ==> forall d :: Shaped(old(solver.data), d) ==> Shaped(solver.data, d)
  {
    xi2 := xi;
    var filled := FillMinibatch(x, y, round.idx, radius, xi, yi);
    if filled.Err? {
      return filled, xi2;
    }
    if round.op.Some? {
      xi2 := Symmetry.XformMinibatch(xi, round.op.value);
    }
    ghost var data0 := solver.data;
    var out, show := solver.Step(round.diff, round.out, pow);
    if out.Err? {
      return Err(out.error), xi2;
    }
    forall d | Shaped(data0, d)
      ensures Shaped(solver.data, d)
    {
      ShapedTransfer(data0, solver.data, round.diff, d);
    }
    r := Ok(());
  }

  /** `TrainRound` on tiles of the epoch's batch dimensions, as the epoch
      loop needs it: how the round ended, the counter, and the shapes of the
      minibatch and of the blobs. */
  method EpochRound(solver: SGDSolverMemoryData, x: array3<real>, y: array3<int>, batchDim: Border.BatchDim,
                    xi: array4<real>, yi: array<int>, round: Round, pow: (real, real) -> real)
    returns (r: Result<()>, xi2: array4<real>)
    requires solver.Valid() && SameShape(x, y)
    requires xi.Length0 == yi.Length == batchDim.batch && xi.Length1 == batchDim.channels
    requires xi.Length2 == batchDim.rows && xi.Length3 == batchDim.cols
    requires |round.idx| <= batchDim.batch && (round.op.Some? ==> batchDim.rows == batchDim.cols)
    requires Shaped(solver.data, round.diff)
    requires forall j :: 0 <= j < |round.idx| ==> Interior(x, round.idx[j], Border.BorderSize(batchDim))
    modifies solver, xi, yi
    ensures xi2 == xi || fresh(xi2)
    ensures xi2.Length0 == batchDim.batch && xi2.Length1 == batchDim.channels
    ensures xi2.Length2 == batchDim.rows && xi2.Length3 == batchDim.cols
    ensures solver.Valid()
    ensures r.Err? ==>
      RoundEnded(solver.param, solver.verbose, old(solver.iter), round,
                 Border.BorderSize(batchDim), batchDim.channels, batchDim.rows, batchDim.cols, pow, solver.iter, r)
    ensures r.Ok? ==> solver.iter == old(solver.iter) + 1
    ensures r.Ok? ==> forall d :: Shaped(old(solver.data), d) ==> Shaped(solver.data, d)
  {
    r, xi2 := TrainRound(solver, x, y, Border.BorderSize(batchDim), xi, yi, round, pow);
  }

  /** The loop of one epoch over the minibatches in `rounds`, with the tile
      buffers `xi` and `yi`. `steps` counts the rounds that finished,
      snapshot check included. A round that fails stops the loop; if its
      solver step had completed (and `print_state` raised), the counter has
      moved on too. */
  method TrainRounds(solver: SGDSolverMemoryData, x: array3<real>, y: array3<int>, batchDim: Border.BatchDim,
                     xi: array4<real>, yi: array<int>, rounds: seq<Round>, pow: (real, real) -> real)
    returns (r: Result<()>, snapshots: seq<nat>, steps: nat)
    requires solver.Valid() && SameShape(x, y)
    requires xi.Length0 == yi.Length == batchDim.batch && xi.Length1 == batchDim.channels
    requires xi.Length2 == batchDim.rows && xi.Length3 == batchDim.cols
    requires forall k :: 0 <= k < |rounds| ==> rounds[k].op.Some? ==> batchDim.rows == batchDim.cols
    requires forall k :: 0 <= k < |rounds| ==>
      |rounds[k].idx| <= batchDim.batch && Shaped(solver.data, rounds[k].diff) &&
      forall j :: 0 <= j < |rounds[k].idx| ==> Interior(x, rounds[k].idx[j], Border.BorderSize(batchDim))
    modifies solver, xi, yi
    ensures solver.Valid()
    ensures steps <= |rounds|
    ensures snapshots == SnapshotsBetween(old(solver.iter), old(solver.iter) + steps, solver.param.snapshot)
    ensures 1 < steps ==> old(solver.iter) + steps - 1 < solver.param.maxIter
    ensures r.Ok? ==> solver.iter == old(solver.iter) + steps && (steps == |rounds| || solver.IsTrainingComplete())
    ensures r.Err? ==>
      steps < |rounds| &&
      RoundEnded(solver.param, solver.verbose, old(solver.iter) + steps, rounds[steps],
                 Border.BorderSize(batchDim), batchDim.channels, batchDim.rows, batchDim.cols, pow, solver.iter, r)
  {
    var tiles := xi;
    ghost var iter0 := solver.iter;
    snapshots := [];
    steps := 0;
    while steps < |rounds|
      invariant steps <= |rounds|
      invariant tiles == xi || fresh(tiles)
      invariant tiles.Length0 == yi.Length == batchDim.batch && tiles.Length1 == batchDim.channels
      invariant tiles.Length2 == batchDim.rows && tiles.Length3 == batchDim.cols
      invariant solver.Valid() && solver.iter == iter0 + steps
      invariant forall k :: steps <= k < |rounds| ==> Shaped(solver.data, rounds[k].diff)
      invariant snapshots == SnapshotsBetween(iter0, iter0 + steps, solver.param.snapshot)
      invariant 0 < steps ==> solver.iter < solver.param.maxIter
      decreases |rounds| - steps
    {
      var result;
      result, tiles := EpochRound(solver, x, y, batchDim, tiles, yi, rounds[steps], pow);
      if result.Err? {
        return result, snapshots, steps;
      }
      steps := steps + 1;
      if solver.IsTimeForSnapshot() {
        snapshots := snapshots + [solver.iter];
      }
      if solver.IsTrainingComplete() {
        break;
      }
    }
    r := Ok(());
  }

  /** `Y` has no element, so `np.max(Y)` raises. */
  predicate EmptyVolume<T>(y: array3<T>) {
    y.Length0 == 0 || y.Length1 == 0 || y.Length2 == 0
  }

  /** One epoch: take the largest label of `Y` (which raises on an empty
      `Y`, before any round), allocate the tile buffers and run the rounds. */
  method TrainOneEpoch(solver: SGDSolverMemoryData, x: array3<real>, y: array3<int>, batchDim: Border.BatchDim,
                       rounds: seq<Round>, pow: (real, real) -> real)
    returns (r: Result<()>, snapshots: seq<nat>, steps: nat)
    requires solver.Valid() && SameShape(x, y)
    requires forall k :: 0 <= k < |rounds| ==> rounds[k].op.Some? ==> batchDim.rows == batchDim.cols
    requires forall k :: 0 <= k < |rounds| ==>
      |rounds[k].idx| <= batchDim.batch && Shaped(solver.data, rounds[k].diff) &&
      forall j :: 0 <= j < |rounds[k].idx| ==> Interior(x, rounds[k].idx[j], Border.BorderSize(batchDim))
    modifies solver
    ensures solver.Valid()
    ensures steps <= |rounds|
    ensures snapshots == SnapshotsBetween(old(solver.iter), old(solver.iter) + steps, solver.param.snapshot)
    ensures 1 < steps ==> old(solver.iter) + steps - 1 < solver.param.maxIter
    ensures r.Ok? ==> solver.iter == old(solver.iter) + steps && (steps == |rounds| || solver.IsTrainingComplete())
    ensures EmptyVolume(y) ==>
      r == Err(ValueError("zero-size array to reduction operation maximum which has no identity")) &&
      steps == 0 && solver.iter == old(solver.iter)
    ensures r.Err? && !EmptyVolume(y) ==>
      steps < |rounds| &&
      RoundEnded(solver.param, solver.verbose, old(solver.iter) + steps, rounds[steps],
                 Border.BorderSize(batchDim), batchDim.channels, batchDim.rows, batchDim.cols, pow, solver.iter, r)
  {
    if EmptyVolume(y) {
      return Err(ValueError("zero-size array to reduction operation maximum which has no identity")), [], 0;
    }
    var xi := new real[batchDim.batch, batchDim.channels, batchDim.rows, batchDim.cols];
    var yi := new int[batchDim.batch];
    r, snapshots, steps := TrainRounds(solver, x, y, batchDim, xi, yi, rounds, pow);
  }
}
