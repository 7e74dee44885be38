/** Tile radius and border pruning: `border_size`, `prune_border_3d` and
    `prune_border_4d` of src/emcnn.py, with numpy's basic slicing spelled out. */
module Border {

  /** The batch shape `(minibatchSize, channels, rows, cols)` of the network's
      data layer; `batchDim[2]` is the tile height. */
  datatype BatchDim = BatchDim(batch: nat, channels: nat, rows: nat, cols: nat)

  /** `int(batchDim[2] / 2)`; the operand is non-negative, so truncation and
      floor agree. */
  function BorderSize(d: BatchDim): (bs: nat)
    ensures 2 * bs <= d.rows < 2 * bs + 2
  {
    d.rows / 2
  }

  /** Side of the window `a:b` with `a = r - R`, `b = r + R + 1`. */
  function TileSide(radius: nat): nat {
    2 * radius + 1
  }

  /** The extracted window fits the tile of the data layer only for odd tile
      heights; for an even height numpy refuses the assignment. */
  lemma TileSideMatchesOddHeight(d: BatchDim)
    ensures TileSide(BorderSize(d)) == d.rows <==> d.rows % 2 == 1
  {
  }

  /** Python's clamping of a slice bound against a sequence of length `len`. */
  function SliceBound(i: int, len: nat): (b: nat)
    ensures b <= len
  {
    if i < 0 then (if len + i < 0 then 0 else len + i)
    else if i > len then len
    else i
  }

  /** `s[start:stop]` with Python semantics (negative bounds count from the end,
      bounds are clamped, an empty range gives an empty slice). */
  function PySlice<T>(s: seq<T>, start: int, stop: int): (r: seq<T>)
    ensures |r| <= |s|
  {
    var a := SliceBound(start, |s|);
    var b := SliceBound(stop, |s|);
    if a < b then s[a..b] else []
  }

  type Grid<T> = seq<seq<T>>

  /** `G[bs:(-bs), bs:(-bs)]` exactly as written: for `bs == 0` the bound `-bs`
      is `0`, so both axes come out empty. */
  function PruneGridAsWritten<T>(g: Grid<T>, bs: nat): Grid<T> {
    var rows := PySlice(g, bs, -(bs as int));
    seq(|rows|, i requires 0 <= i < |rows| => PySlice(rows[i], bs, -(bs as int)))
  }

  /** The intended pruning `G[bs:H-bs, bs:W-bs]`: drop `bs` entries at both
      ends of each of the two axes. */
  function PruneGrid<T>(g: Grid<T>, bs: nat): Grid<T> {
    var rows := PySlice(g, bs, |g| - bs);
    seq(|rows|, i requires 0 <= i < |rows| => PySlice(rows[i], bs, |rows[i]| - bs))
  }

  function PruneBorder3dAsWritten<T>(x: seq<Grid<T>>, bs: nat): seq<Grid<T>> {
    seq(|x|, s requires 0 <= s < |x| => PruneGridAsWritten(x[s], bs))
  }

  function PruneBorder4dAsWritten<T>(x: seq<seq<Grid<T>>>, bs: nat): seq<seq<Grid<T>>> {
    seq(|x|, a requires 0 <= a < |x| => seq(|x[a]|, b requires 0 <= b < |x[a]| => PruneGridAsWritten(x[a][b], bs)))
  }

  function PruneBorder3d<T>(x: seq<Grid<T>>, bs: nat): seq<Grid<T>> {
    seq(|x|, s requires 0 <= s < |x| => PruneGrid(x[s], bs))
  }

  function PruneBorder4d<T>(x: seq<seq<Grid<T>>>, bs: nat): seq<seq<Grid<T>>> {
    seq(|x|, a requires 0 <= a < |x| => seq(|x[a]|, b requires 0 <= b < |x[a]| => PruneGrid(x[a][b], bs)))
  }

  /** Every row of `g` has `w` entries and there are `h` rows. */
  predicate IsGrid<T>(g: Grid<T>, h: nat, w: nat) {
    |g| == h && forall i :: 0 <= i < h ==> |g[i]| == w
  }

  /** The two prunings agree whenever the border is not empty. */
  lemma PruneAgreesForPositiveBorder<T>(g: Grid<T>, bs: nat)
    requires bs > 0
    ensures PruneGridAsWritten(g, bs) == PruneGrid(g, bs)
  {
    var rows := PySlice(g, bs, -(bs as int));
    assert rows == PySlice(g, bs, |g| - bs);
    forall i | 0 <= i < |rows| ensures PySlice(rows[i], bs, -(bs as int)) == PySlice(rows[i], bs, |rows[i]| - bs) {
    }
  }

  /** `p` is the `h` by `w` grid `g` with a border of `bs` removed: an
      `(h - 2 bs)` by `(w - 2 bs)` grid whose entry `(i, j)` is the entry
      `(i + bs, j + bs)` of `g`. */
  ghost predicate PrunedFrom<T>(p: Grid<T>, g: Grid<T>, bs: nat, h: nat, w: nat) {
    IsGrid(g, h, w) && 2 * bs <= h && 2 * bs <= w &&
    IsGrid(p, h - 2 * bs, w - 2 * bs) &&
    forall i, j :: 0 <= i < h - 2 * bs && 0 <= j < w - 2 * bs ==> p[i][j] == g[i + bs][j + bs]
  }

  /** Pruning an `h` by `w` grid with `2 * bs <= h, w` removes a border of
      `bs` on each side. */
  lemma PruneGridAt<T>(g: Grid<T>, bs: nat, h: nat, w: nat)
    requires IsGrid(g, h, w)
    requires 2 * bs <= h && 2 * bs <= w
    ensures PrunedFrom(PruneGrid(g, bs), g, bs, h, w)
  {
    var rows := PySlice(g, bs, |g| - bs);
    if bs < h - bs {
      assert rows == g[bs..h - bs];
    } else {
      assert rows == [];
    }
    var p := PruneGrid(g, bs);
    assert |p| == h - 2 * bs;
    forall i | 0 <= i < h - 2 * bs
      ensures |p[i]| == w - 2 * bs
      ensures forall j :: 0 <= j < w - 2 * bs ==> p[i][j] == g[i + bs][j + bs]
    {
      assert rows[i] == g[i + bs];
      assert |g[i + bs]| == w;
      assert p[i] == PySlice(rows[i], bs, |rows[i]| - bs);
      if bs < w - bs {
        assert p[i] == g[i + bs][bs..w - bs];
      } else {
        assert p[i] == [];
      }
    }
  }

  /** `prune_border_3d`: the slice axis is kept, and each slice loses a
      border of `bs`: element `(s, i, j)` of the result is element
      `(s, i + bs, j + bs)` of the input. */
  lemma PruneBorder3dAt<T>(x: seq<Grid<T>>, bs: nat, h: nat, w: nat)
    requires forall s :: 0 <= s < |x| ==> IsGrid(x[s], h, w)
    requires 2 * bs <= h && 2 * bs <= w
    ensures |PruneBorder3d(x, bs)| == |x|
    ensures forall s :: 0 <= s < |x| ==> PrunedFrom(PruneBorder3d(x, bs)[s], x[s], bs, h, w)
  {
    forall s | 0 <= s < |x|
      ensures PrunedFrom(PruneGrid(x[s], bs), x[s], bs, h, w)
    {
      PruneGridAt(x[s], bs, h, w);
    }
  }

  /** `prune_border_4d`: the two leading axes are kept, and each grid loses
      a border of `bs`. */
  lemma PruneBorder4dAt<T>(x: seq<seq<Grid<T>>>, bs: nat, h: nat, w: nat)
    requires forall a, b :: 0 <= a < |x| && 0 <= b < |x[a]| ==> IsGrid(x[a][b], h, w)
    requires 2 * bs <= h && 2 * bs <= w
    ensures |PruneBorder4d(x, bs)| == |x|
    ensures forall a :: 0 <= a < |x| ==> |PruneBorder4d(x, bs)[a]| == |x[a]|
    ensures forall a, b :: 0 <= a < |x| && 0 <= b < |x[a]| ==>
      PrunedFrom(PruneBorder4d(x, bs)[a][b], x[a][b], bs, h, w)
  {
    forall a, b | 0 <= a < |x| && 0 <= b < |x[a]|
      ensures PrunedFrom(PruneGrid(x[a][b], bs), x[a][b], bs, h, w)
    {
      PruneGridAt(x[a][b], bs, h, w);
    }
  }

  /** The discrepancy: with a zero border (tile height 0 or 1) the code as
      written discards every pixel, while the intended pruning keeps the
      volume as it is. */
  lemma ZeroBorderEmptiesVolume<T>(x: seq<Grid<T>>)
    ensures forall s :: 0 <= s < |x| ==> PruneBorder3dAsWritten(x, 0)[s] == []
    ensures PruneBorder3d(x, 0) == x
  {
    forall s | 0 <= s < |x| ensures PruneGrid(x[s], 0) == x[s] {
      var g := x[s];
      assert PySlice(g, 0, |g|) == g;
      forall i | 0 <= i < |g| ensures PySlice(g[i], 0, |g[i]|) == g[i] {
        assert g[i][0..|g[i]|] == g[i];
      }
    }
  }
}
