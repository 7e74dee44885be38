/** `predict` of src/emcnn.py and the class estimates `_train_network` forms
    from it. The forward pass of the network is not modelled: each iteration
    of the pixel generator is given as the voxels it yielded and the values
    the forward pass produced for them. */
module Predict {
  import opened Common
  import opened Volume

  /** One iteration of the generator loop: the voxels `Idx` and the output
      matrix of the forward pass, one row per minibatch example and one column
      per channel of `Prob` (per class, or per Monte Carlo sample of class 0
      when `nMC > 0`). */
  datatype Batch = Batch(idx: seq<Voxel>, values: seq<seq<real>>)

  /** The rows `pj[:Idx.shape[0]]` exist and have a column `j`. */
  predicate HasColumn(b: Batch, j: nat) {
    |b.idx| <= |b.values| && forall k :: 0 <= k < |b.idx| ==> j < |b.values[k]|
  }

  predicate VoxelIn(prob: array4<real>, v: Voxel) {
    0 <= v.z < prob.Length1 && 0 <= v.r < prob.Length2 && 0 <= v.c < prob.Length3
  }

  /** The value the fancy assignment `Prob[j, Idx[:,0], Idx[:,1], Idx[:,2]] =
      pj[:n]` leaves at voxel `v`, given the value `before` it. numpy does not
      say which of several rows naming the same voxel wins; this model assumes
      the last one does. Which voxels are written at all does not depend on
      that assumption. */
  function AfterScatter(idx: seq<Voxel>, values: seq<seq<real>>, j: nat, v: Voxel, before: real): real
    requires HasColumn(Batch(idx, values), j)
    decreases |idx|
  {
    if |idx| == 0 then before
    else if idx[|idx| - 1] == v then values[|idx| - 1][j]
    else AfterScatter(idx[..|idx| - 1], values, j, v, before)
  }

  /** Channel `j` of `Prob` at voxel `v` after all of `batches`, starting
      from the fill value -1. */
  function ProbAt(batches: seq<Batch>, j: nat, v: Voxel): real
    requires forall b :: 0 <= b < |batches| ==> HasColumn(batches[b], j)
  {
    if |batches| == 0 then -1.0
    else
      var last := batches[|batches| - 1];
      AfterScatter(last.idx, last.values, j, v, ProbAt(batches[..|batches| - 1], j, v))
  }

  lemma {:induction false} AfterScatterMiss(idx: seq<Voxel>, values: seq<seq<real>>, j: nat, v: Voxel, before: real)
    requires HasColumn(Batch(idx, values), j)
    requires v !in idx
    ensures AfterScatter(idx, values, j, v, before) == before
  {
    if |idx| > 0 {
      AfterScatterMiss(idx[..|idx| - 1], values, j, v, before);
    }
  }

  /** If row `k` is the last row of `Idx` naming `v`, `v` gets that row's value. */
  lemma {:induction false} AfterScatterHit(idx: seq<Voxel>, values: seq<seq<real>>, j: nat, v: Voxel, before: real, k: nat)
    requires HasColumn(Batch(idx, values), j)
    requires k < |idx| && idx[k] == v && v !in idx[k + 1..]
    ensures AfterScatter(idx, values, j, v, before) == values[k][j]
  {
    if k < |idx| - 1 {
      assert idx[|idx| - 1] in idx[k + 1..];
      assert idx[..|idx| - 1][k + 1..] == idx[k + 1..|idx| - 1];
      AfterScatterHit(idx[..|idx| - 1], values, j, v, before, k);
    }
  }

  /** A voxel the generator never yields stays at -1 in every channel. */
  lemma {:induction false} NeverSampledStaysMinusOne(batches: seq<Batch>, j: nat, v: Voxel)
    requires forall b :: 0 <= b < |batches| ==> HasColumn(batches[b], j)
    requires forall b :: 0 <= b < |batches| ==> v !in batches[b].idx
    ensures ProbAt(batches, j, v) == -1.0
  {
    if |batches| > 0 {
      var last := batches[|batches| - 1];
      NeverSampledStaysMinusOne(batches[..|batches| - 1], j, v);
      AfterScatterMiss(last.idx, last.values, j, v, ProbAt(batches[..|batches| - 1], j, v));
    }
  }

  /** A voxel yielded at row `k` of batch `b`, and never afterwards, holds the
      forward pass's value for that row. */
  lemma {:induction false} SampledHoldsItsValue(batches: seq<Batch>, j: nat, v: Voxel, b: nat, k: nat)
    requires forall b' :: 0 <= b' < |batches| ==> HasColumn(batches[b'], j)
    requires b < |batches| && k < |batches[b].idx| && batches[b].idx[k] == v
    requires v !in batches[b].idx[k + 1..]
    requires forall b' :: b < b' < |batches| ==> v !in batches[b'].idx
    ensures ProbAt(batches, j, v) == batches[b].values[k][j]
  {
    var last := batches[|batches| - 1];
    if b == |batches| - 1 {
      AfterScatterHit(last.idx, last.values, j, v, ProbAt(batches[..|batches| - 1], j, v), k);
    } else {
      SampledHoldsItsValue(batches[..|batches| - 1], j, v, b, k);
      AfterScatterMiss(last.idx, last.values, j, v, ProbAt(batches[..|batches| - 1], j, v));
    }
  }

  /** When the forward pass only produces non-negative values (probabilities),
      `Prob` is -1 at a voxel exactly when the generator never yielded it. */
  lemma {:induction false} MinusOneIffNeverSampled(batches: seq<Batch>, j: nat, v: Voxel)
    requires forall b :: 0 <= b < |batches| ==> HasColumn(batches[b], j)
    requires forall b, k :: 0 <= b < |batches| && 0 <= k < |batches[b].idx| ==>
      k < |batches[b].values| && j < |batches[b].values[k]| && 0.0 <= batches[b].values[k][j]
    ensures ProbAt(batches, j, v) == -1.0 <==> forall b :: 0 <= b < |batches| ==> v !in batches[b].idx
  {
    if |batches| > 0 {
      var init, last := batches[..|batches| - 1], batches[|batches| - 1];
      MinusOneIffNeverSampled(init, j, v);
      if v in last.idx {
        var k := LastIndexOf(last.idx, v);
        AfterScatterHit(last.idx, last.values, j, v, ProbAt(init, j, v), k);
      } else {
        AfterScatterMiss(last.idx, last.values, j, v, ProbAt(init, j, v));
        assert forall b :: 0 <= b < |init| ==> init[b] == batches[b];
      }
    }
  }

  lemma {:induction false} LastIndexOf(idx: seq<Voxel>, v: Voxel) returns (k: nat)
    requires v in idx
    ensures k < |idx| && idx[k] == v && v !in idx[k + 1..]
  {
    if idx[|idx| - 1] == v {
      k := |idx| - 1;
    } else {
      assert v in idx[..|idx| - 1] by {
        var i :| 0 <= i < |idx| && idx[i] == v;
        assert idx[..|idx| - 1][i] == v;
      }
      k := LastIndexOf(idx[..|idx| - 1], v);
      assert idx[k + 1..] == idx[..|idx| - 1][k + 1..] + [idx[|idx| - 1]];
    }
  }

  /** One `Prob[jj, Idx[:,0], Idx[:,1], Idx[:,2]] = pj[:Idx.shape[0]]`:
      only channel `j` at the listed voxels changes. */
  method ScatterChannel(prob: array4<real>, j: nat, b: Batch)
    requires j < prob.Length0 && HasColumn(b, j)
    requires forall k :: 0 <= k < |b.idx| ==> VoxelIn(prob, b.idx[k])
    modifies prob
    ensures forall j', z, r, c :: 0 <= j' < prob.Length0 && VoxelIn(prob, Voxel(z, r, c)) ==>
      prob[j', z, r, c] ==
        if j' == j then AfterScatter(b.idx, b.values, j, Voxel(z, r, c), old(prob[j, z, r, c]))
        else old(prob[j', z, r, c])
  {
    for k := 0 to |b.idx|
      invariant forall j', z, r, c :: 0 <= j' < prob.Length0 && VoxelIn(prob, Voxel(z, r, c)) ==>
        prob[j', z, r, c] ==
          if j' == j then AfterScatter(b.idx[..k], b.values, j, Voxel(z, r, c), old(prob[j, z, r, c]))
          else old(prob[j', z, r, c])
    {
      assert b.idx[..k + 1][..k] == b.idx[..k];
      var v := b.idx[k];
      prob[j, v.z, v.r, v.c] := b.values[k][j];
    }
    assert b.idx[..|b.idx|] == b.idx;
  }

  /** The loop `for jj in range(nClasses)` for one batch. */
  method ScatterBatch(prob: array4<real>, b: Batch)
    requires forall j :: 0 <= j < prob.Length0 ==> HasColumn(b, j)
    requires forall k :: 0 <= k < |b.idx| ==> VoxelIn(prob, b.idx[k])
    modifies prob
    ensures forall j, z, r, c :: 0 <= j < prob.Length0 && VoxelIn(prob, Voxel(z, r, c)) ==>
      prob[j, z, r, c] == AfterScatter(b.idx, b.values, j, Voxel(z, r, c), old(prob[j, z, r, c]))
  {
    for j := 0 to prob.Length0
      invariant forall j', z, r, c :: 0 <= j' < prob.Length0 && VoxelIn(prob, Voxel(z, r, c)) ==>
        prob[j', z, r, c] ==
          if j' < j then AfterScatter(b.idx, b.values, j', Voxel(z, r, c), old(prob[j', z, r, c]))
          else old(prob[j', z, r, c])
    {
      ScatterChannel(prob, j, b);
    }
  }

  /** `predict`: `Prob` of shape `(channels,) + X.shape`, filled with -1, then
      every batch of the generator scattered into it. A voxel the generator
      never yields keeps -1 in every channel. */
  method PredictVolume(batches: seq<Batch>, channels: nat, depth: nat, height: nat, width: nat)
    returns (prob: array4<real>)
    requires forall b, j :: 0 <= b < |batches| && 0 <= j < channels ==> HasColumn(batches[b], j)
    requires forall b, k :: 0 <= b < |batches| && 0 <= k < |batches[b].idx| ==>
      0 <= batches[b].idx[k].z < depth && 0 <= batches[b].idx[k].r < height && 0 <= batches[b].idx[k].c < width
    ensures fresh(prob)
    ensures prob.Length0 == channels && prob.Length1 == depth && prob.Length2 == height && prob.Length3 == width
    ensures forall j, z, r, c :: 0 <= j < channels && VoxelIn(prob, Voxel(z, r, c)) ==>
      prob[j, z, r, c] == ProbAt(batches, j, Voxel(z, r, c))
    ensures forall j, z, r, c ::
      (0 <= j < channels && VoxelIn(prob, Voxel(z, r, c)) &&
       forall b :: 0 <= b < |batches| ==> Voxel(z, r, c) !in batches[b].idx) ==>
      prob[j, z, r, c] == -1.0
  {
    prob := new real[channels, depth, height, width]((j, z, r, c) => -1.0);
    for t := 0 to |batches|
      invariant forall j, z, r, c :: 0 <= j < channels && VoxelIn(prob, Voxel(z, r, c)) ==>
        prob[j, z, r, c] == ProbAt(batches[..t], j, Voxel(z, r, c))
    {
      assert batches[..t + 1][..t] == batches[..t];
      ScatterBatch(prob, batches[t]);
    }
    assert batches[..|batches|] == batches;
    forall j, z, r, c | 0 <= j < channels && VoxelIn(prob, Voxel(z, r, c)) &&
      (forall b :: 0 <= b < |batches| ==> Voxel(z, r, c) !in batches[b].idx)
      ensures prob[j, z, r, c] == -1.0
    {
      NeverSampledStaysMinusOne(batches, j, Voxel(z, r, c));
    }
  }

  /** `np.argmax` along one axis: the first index of a maximum. */
  function ArgMax(s: seq<real>): (k: nat)
    requires |s| > 0
    ensures k < |s|
    ensures forall i :: 0 <= i < |s| ==> s[i] <= s[k]
    ensures forall i :: 0 <= i < k ==> s[i] < s[k]
  {
    if |s| == 1 then 0
    else
      var k := ArgMax(s[..|s| - 1]);
      if s[|s| - 1] > s[k] then |s| - 1 else k
  }

  /** The per-channel values of `Prob` at one voxel. */
  function Column(prob: array4<real>, z: nat, r: nat, c: nat): (s: seq<real>)
    requires VoxelIn(prob, Voxel(z, r, c))
    reads prob
    ensures |s| == prob.Length0
  {
    seq(prob.Length0, j requires 0 <= j < prob.Length0 reads prob => prob[j, z, r, c])
  }

  /** `Mask = np.ones(...); Mask[Yvalid < 0] = False`. */
  method ValidationMask(y: array3<int>) returns (mask: array3<bool>)
    ensures fresh(mask) && SameShape(mask, y)
    ensures forall z, r, c :: InBounds(y, z, r, c) ==> (mask[z, r, c] <==> y[z, r, c] >= 0)
  {
    mask := new bool[y.Length0, y.Length1, y.Length2]((z, r, c) => true);
    forall z, r, c | 0 <= z < y.Length0 && 0 <= r < y.Length1 && 0 <= c < y.Length2 && y[z, r, c] < 0 {
      mask[z, r, c] := false;
    }
  }

  /** `Yhat = np.argmax(Prob, 0)`: numpy refuses an empty class axis. */
  method ArgMaxChannels(prob: array4<real>) returns (r: Result<array3<int>>)
    ensures r.Err? <==> prob.Length0 == 0
    ensures r.Err? ==> r.error == ValueError("attempt to get argmax of an empty sequence")
    ensures r.Ok? ==> fresh(r.value)
    ensures r.Ok? ==> r.value.Length0 == prob.Length1 && r.value.Length1 == prob.Length2 && r.value.Length2 == prob.Length3
    ensures r.Ok? ==> forall z, c, w :: InBounds(r.value, z, c, w) ==> r.value[z, c, w] == ArgMax(Column(prob, z, c, w))
  {
    if prob.Length0 == 0 {
      return Err(ValueError("attempt to get argmax of an empty sequence"));
    }
    var yhat := new int[prob.Length1, prob.Length2, prob.Length3];
    forall z, c, w | 0 <= z < prob.Length1 && 0 <= c < prob.Length2 && 0 <= w < prob.Length3 {
      yhat[z, c, w] := ArgMax(Column(prob, z, c, w));
    }
    return Ok(yhat);
  }

  /** `Yhat[Mask == False] = -1`. */
  method MaskEstimates(yhat: array3<int>, mask: array3<bool>)
    requires SameShape(yhat, mask)
    modifies yhat
    ensures forall z, r, c :: InBounds(yhat, z, r, c) ==>
      yhat[z, r, c] == if mask[z, r, c] then old(yhat[z, r, c]) else -1
  {
    forall z, r, c | 0 <= z < yhat.Length0 && 0 <= r < yhat.Length1 && 0 <= c < yhat.Length2 && !mask[z, r, c] {
      yhat[z, r, c] := -1;
    }
  }

  /** The validation estimates of `_train_network`: the mask from the labels,
      then the class estimates with -1 at every masked voxel. `Yhat` is -1
      exactly where the label is negative, and elsewhere it is the first class
      of largest value. A `Prob` without classes makes `argmax` raise. */
  method ValidationEstimates(yvalid: array3<int>, prob: array4<real>) returns (r: Result<array3<int>>)
    requires prob.Length1 == yvalid.Length0 && prob.Length2 == yvalid.Length1 && prob.Length3 == yvalid.Length2
    ensures r.Err? <==> prob.Length0 == 0
    ensures r.Err? ==> r.error.ValueError?
    ensures r.Ok? ==> fresh(r.value) && SameShape(r.value, yvalid)
    ensures r.Ok? ==> forall z, c, w :: InBounds(yvalid, z, c, w) ==> (r.value[z, c, w] == -1 <==> yvalid[z, c, w] < 0)
    ensures r.Ok? ==> forall z, c, w :: InBounds(yvalid, z, c, w) && yvalid[z, c, w] >= 0 ==>
      0 <= r.value[z, c, w] < prob.Length0 && r.value[z, c, w] == ArgMax(Column(prob, z, c, w))
  {
    var mask := ValidationMask(yvalid);
    r := ArgMaxChannels(prob);
    if r.Ok? {
      MaskEstimates(r.value, mask);
    }
  }
}
