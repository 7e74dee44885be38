/** The minibatch fill of `train_one_epoch` (src/emcnn.py): for every voxel
    the pixel generator yields, copy the window of radius `R` centred on it
    into channel 0 of the preallocated `Xi` and its label into `yi`. */
module Tiles {
  import opened Common
  import opened Volume

  /** A voxel whose window of radius `radius` lies inside the volume; the
      interior pixel generators only yield such voxels. */
  predicate Interior<T>(x: array3<T>, v: Voxel, radius: nat) {
    0 <= v.z < x.Length0 &&
    radius <= v.r < x.Length1 - radius &&
    radius <= v.c < x.Length2 - radius
  }

  /** numpy's broadcasting rule for assigning a square window of side
      `2R+1` into a `rows x cols` tile: a 1x1 window (`R == 0`) is broadcast
      into a tile of any shape; a larger window fits only a tile of its own
      shape. */
  predicate WindowFits(radius: nat, rows: nat, cols: nat) {
    radius == 0 || (rows == 2 * radius + 1 && cols == 2 * radius + 1)
  }

  /** Element `(u, v)` of the tile the window centred on `p` is assigned
      into: with `R == 0` the single pixel, broadcast. */
  function WindowValue(x: array3<real>, p: Voxel, radius: nat, u: nat, v: nat): real
    requires Interior(x, p, radius) && (radius == 0 || (u < 2 * radius + 1 && v < 2 * radius + 1))
    reads x
  {
    if radius == 0 then x[p.z, p.r, p.c] else x[p.z, p.r - radius + u, p.c - radius + v]
  }

  /** What a successful fill leaves: for each of the `|idx|` sampled voxels,
      channel 0 of its row of `Xi` holds the window centred on it (broadcast
      when `R == 0`) and its entry of `yi` holds the voxel's label. */
  ghost predicate Filled(x: array3<real>, y: array3<int>, idx: seq<Voxel>, radius: nat, xi: array4<real>, yi: array<int>)
    reads x, y, xi, yi
  {
    SameShape(x, y) && |idx| <= xi.Length0 && |idx| <= yi.Length &&
    (forall k :: 0 <= k < |idx| ==> Interior(x, idx[k], radius)) &&
    (0 < |idx| ==> 0 < xi.Length1 && WindowFits(radius, xi.Length2, xi.Length3)) &&
    (forall jj, u, v :: 0 <= jj < |idx| && 0 <= u < xi.Length2 && 0 <= v < xi.Length3 ==>
       xi[jj, 0, u, v] == WindowValue(x, idx[jj], radius, u, v)) &&
    (forall jj :: 0 <= jj < |idx| ==> yi[jj] == y[idx[jj].z, idx[jj].r, idx[jj].c])
  }

  /** The inner loop over `jj in range(Idx.shape[0])`. Rows of `Xi` and `yi`
      at or beyond `Idx.shape[0]`, and channels of `Xi` other than 0, keep
      whatever they held before: the last minibatch of an epoch recycles
      examples of the previous one. With something to copy, indexing
      channel 0 of an `Xi` without channels raises `IndexError`, and a
      window that does not broadcast into the tile raises `ValueError`;
      either happens at the first assignment, before anything is written. */
  method FillMinibatch(x: array3<real>, y: array3<int>, idx: seq<Voxel>, radius: nat,
                       xi: array4<real>, yi: array<int>) returns (r: Result<()>)
    requires SameShape(x, y)
    requires xi.Length0 == yi.Length && |idx| <= xi.Length0
    requires forall k :: 0 <= k < |idx| ==> Interior(x, idx[k], radius)
    modifies xi, yi
    ensures r.Err? <==> 0 < |idx| && (xi.Length1 == 0 || !WindowFits(radius, xi.Length2, xi.Length3))
    ensures r.Err? ==> r.error == (if xi.Length1 == 0 then IndexError else ValueError("could not broadcast window into tile"))
    ensures r.Err? ==> unchanged(xi) && unchanged(yi)
    ensures r.Ok? ==> Filled(x, y, idx, radius, xi, yi)
    ensures r.Ok? && 0 < radius ==> forall jj, u, v :: 0 <= jj < |idx| && 0 <= u < xi.Length2 && 0 <= v < xi.Length3 ==>
      Interior(x, idx[jj], radius) && u < 2 * radius + 1 && v < 2 * radius + 1 &&
      xi[jj, 0, u, v] == x[idx[jj].z, idx[jj].r - radius + u, idx[jj].c - radius + v]
    ensures r.Ok? && radius == 0 ==> forall jj, u, v :: 0 <= jj < |idx| && 0 <= u < xi.Length2 && 0 <= v < xi.Length3 ==>
      Interior(x, idx[jj], radius) && xi[jj, 0, u, v] == x[idx[jj].z, idx[jj].r, idx[jj].c]
    ensures r.Ok? ==> forall jj :: 0 <= jj < |idx| ==> Interior(y, idx[jj], radius) && yi[jj] == y[idx[jj].z, idx[jj].r, idx[jj].c]
    ensures forall s, ch, u, v ::
      (0 <= s < xi.Length0 && 0 <= ch < xi.Length1 && 0 <= u < xi.Length2 && 0 <= v < xi.Length3 &&
       !(s < |idx| && ch == 0)) ==> xi[s, ch, u, v] == old(xi[s, ch, u, v])
    ensures forall s :: |idx| <= s < yi.Length ==> yi[s] == old(yi[s])
  {
    if |idx| > 0 && xi.Length1 == 0 {
      return Err(IndexError);
    }
    if |idx| > 0 && !WindowFits(radius, xi.Length2, xi.Length3) {
      return Err(ValueError("could not broadcast window into tile"));
    }
    r := Ok(());
    for jj := 0 to |idx|
      invariant forall s, u, v :: 0 <= s < jj && 0 <= u < xi.Length2 && 0 <= v < xi.Length3 ==>
        xi[s, 0, u, v] == WindowValue(x, idx[s], radius, u, v)
      invariant forall s :: 0 <= s < jj ==> yi[s] == y[idx[s].z, idx[s].r, idx[s].c]
      invariant forall s, ch, u, v ::
        (0 <= s < xi.Length0 && 0 <= ch < xi.Length1 && 0 <= u < xi.Length2 && 0 <= v < xi.Length3 &&
         !(s < jj && ch == 0)) ==> xi[s, ch, u, v] == old(xi[s, ch, u, v])
      invariant forall s :: jj <= s < yi.Length ==> yi[s] == old(yi[s])
    {
      var p := idx[jj];
      forall u, v | 0 <= u < xi.Length2 && 0 <= v < xi.Length3 {
        xi[jj, 0, u, v] := WindowValue(x, p, radius, u, v);
      }
      yi[jj] := y[p.z, p.r, p.c];
    }
  }
}
