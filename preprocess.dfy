/** The ISBI preprocessing script, src/preprocess.py: relabel the ground truth
    in place, convert it to signed bytes, cut the train, validation and test
    slices out of both volumes, and mark every pixel brighter than a threshold
    as unused (-1).

    The threshold is an input: the script obtains it as a quantile of the
    membrane pixels' brightness. Pixel values are reals. */
module Preprocess {
  import opened Common
  import opened Volume
  import Labels

  /** The argument check on `brightQuant`: both assertions ask for
      `0 < brightQuant <= 1`. */
  function CheckBrightQuant(q: real): (r: Result<real>)
    ensures r.Ok? <==> 0.0 < q <= 1.0
    ensures r.Ok? ==> r.value == q
    ensures r.Err? ==> r.error == AssertionError
  {
    if !(q <= 1.0) then Err(AssertionError)
    else if !(q > 0.0) then Err(AssertionError)
    else Ok(q)
  }

  /** `Y[Y==0] = 1; Y[Y==255] = 0`, in place: every voxel follows the ISBI
      convention, in the order the two assignments are written. */
  method RemapLabels(y: array3<int>)
    modifies y
    ensures forall z, r, c :: InBounds(y, z, r, c) ==> y[z, r, c] == Labels.IsbiLabel(old(y[z, r, c]))
  {
    ReplaceWhere(y, 0, 1);
    ReplaceWhere(y, 255, 0);
  }

  /** The value `astype(np.int8)` gives an integer: the one in `-128..127`
      congruent to it modulo 256. */
  function ToInt8(v: int): (r: int)
    ensures -128 <= r < 128
    ensures (r - v) % 256 == 0
  {
    (v + 128) % 256 - 128
  }

  lemma ToInt8OfByte(v: int)
    ensures 0 <= v < 128 ==> ToInt8(v) == v
    ensures 128 <= v < 256 ==> ToInt8(v) == v - 256
  {
  }

  /** `Y.astype(np.int8)`: a fresh volume of the converted values. */
  method AsInt8(y: array3<int>) returns (y8: array3<int>)
    ensures fresh(y8) && SameShape(y8, y)
    ensures forall z, r, c :: InBounds(y, z, r, c) ==> y8[z, r, c] == ToInt8(y[z, r, c])
  {
    y8 := new int[y.Length0, y.Length1, y.Length2];
    forall z, r, c | 0 <= z < y.Length0 && 0 <= r < y.Length1 && 0 <= c < y.Length2 {
      y8[z, r, c] := ToInt8(y[z, r, c]);
    }
  }

  /** A list index valid for an axis of length `n` (negative ones count from
      the end). */
  predicate ValidIndex(i: int, n: nat) {
    -(n as int) <= i < n
  }

  function PyIndex(i: int, n: nat): (k: nat)
    requires ValidIndex(i, n)
    ensures k < n
  {
    if i < 0 then i + n else i
  }

  predicate ValidIndices(slices: seq<int>, n: nat) {
    forall k :: 0 <= k < |slices| ==> ValidIndex(slices[k], n)
  }

  /** `A[slices, :, :]` with a list of slice numbers: a fresh volume whose
      slice `k` is slice `slices[k]` of `a`, or `IndexError` when a number is
      out of range. */
  method TakeSlices<T(0)>(a: array3<T>, slices: seq<int>) returns (r: Result<array3<T>>)
    ensures r.Err? <==> !ValidIndices(slices, a.Length0)
    ensures r.Err? ==> r.error == IndexError
    ensures r.Ok? ==> fresh(r.value) && IsSlicing(a, slices, r.value)
  {
    for k := 0 to |slices|
      invariant ValidIndices(slices[..k], a.Length0)
    {
      if !ValidIndex(slices[k], a.Length0) {
        return Err(IndexError);
      }
    }
    assert slices[..|slices|] == slices;
    var s := new T[|slices|, a.Length1, a.Length2];
    forall k, i, j | 0 <= k < |slices| && 0 <= i < a.Length1 && 0 <= j < a.Length2 {
      s[k, i, j] := a[PyIndex(slices[k], a.Length0), i, j];
    }
    return Ok(s);
  }

  /** `s` is `a[slices, :, :]`. */
  ghost predicate IsSlicing<T>(a: array3<T>, slices: seq<int>, s: array3<T>)
    reads a, s
  {
    ValidIndices(slices, a.Length0) &&
    s.Length0 == |slices| && s.Length1 == a.Length1 && s.Length2 == a.Length2 &&
    forall k, i, j :: InBounds(s, k, i, j) ==> s[k, i, j] == a[PyIndex(slices[k], a.Length0), i, j]
  }

  /** One output pair of the script. */
  datatype Split = Split(x: array3<real>, y: array3<int>)

  /** The label a pixel ends up with: -1 when brighter than the threshold,
      otherwise its relabelled value as a signed byte. */
  function FinalLabel(v: int, pixel: real, thresh: real): int {
    if pixel > thresh then -1 else ToInt8(v)
  }

  /** `split` holds the slices `slices` of `x` and of the relabelled `y`, with
      the brightness mask applied. */
  ghost predicate IsSplit(x: array3<real>, y: array3<int>, slices: seq<int>, thresh: real, split: Split)
    reads x, y, split.x, split.y
  {
    SameShape(x, y) && IsSlicing(x, slices, split.x) && SameShape(split.x, split.y) &&
    forall k, i, j :: InBounds(split.y, k, i, j) ==>
      split.y[k, i, j] == FinalLabel(y[PyIndex(slices[k], y.Length0), i, j], split.x[k, i, j], thresh)
  }

  /** The body of the script, from the loaded volumes to the three splits.
      `y` is relabelled in place first, as the script does with its copy. */
  method PreprocessIsbi(x: array3<real>, y: array3<int>,
                        trainSlices: seq<int>, validSlices: seq<int>, testSlices: seq<int>,
                        brightQuant: real, thresh: real)
    returns (r: Result<(Split, Split, Split)>)
    requires SameShape(x, y)
    modifies y
    ensures CheckBrightQuant(brightQuant).Err? ==> r == Err(AssertionError) && unchanged(y)
    ensures CheckBrightQuant(brightQuant).Ok? ==>
      forall z, i, j :: InBounds(y, z, i, j) ==> y[z, i, j] == Labels.IsbiLabel(old(y[z, i, j]))
    ensures r.Err? <==>
      CheckBrightQuant(brightQuant).Err? || !ValidIndices(trainSlices, x.Length0) ||
      !ValidIndices(validSlices, x.Length0) || !ValidIndices(testSlices, x.Length0)
    ensures r.Err? && CheckBrightQuant(brightQuant).Ok? ==> r.error == IndexError
    ensures r.Ok? ==>
      var (train, valid, test) := r.value;
      fresh(train.x) && fresh(train.y) && fresh(valid.x) && fresh(valid.y) && fresh(test.x) && fresh(test.y) &&
      IsSplit(x, y, trainSlices, thresh, train) &&
      IsSplit(x, y, validSlices, thresh, valid) &&
      IsSplit(x, y, testSlices, thresh, test)
  {
    var q := CheckBrightQuant(brightQuant);
    if q.Err? {
      return Err(q.error);
    }
    RemapLabels(y);
    var y8 := AsInt8(y);
    var train := MakeSplit(x, y, y8, trainSlices, thresh);
    if train.Err? {
      return Err(train.error);
    }
    var valid := MakeSplit(x, y, y8, validSlices, thresh);
    if valid.Err? {
      return Err(valid.error);
    }
    var test := MakeSplit(x, y, y8, testSlices, thresh);
    if test.Err? {
      return Err(test.error);
    }
    return Ok((train.value, valid.value, test.value));
  }

  /** `Xs = X[slices,:,:]; Ys = Y[slices,:,:]; Ys[Xs > thresh] = -1` for one
      split, `y8` being the signed-byte copy of `y`. */
  method MakeSplit(x: array3<real>, y: array3<int>, y8: array3<int>, slices: seq<int>, thresh: real)
    returns (r: Result<Split>)
    requires SameShape(x, y) && SameShape(y8, y)
    requires forall z, i, j :: InBounds(y, z, i, j) ==> y8[z, i, j] == ToInt8(y[z, i, j])
    ensures r.Err? <==> !ValidIndices(slices, x.Length0)
    ensures r.Err? ==> r.error == IndexError
    ensures r.Ok? ==> fresh(r.value.x) && fresh(r.value.y) && IsSplit(x, y, slices, thresh, r.value)
  {
    var sx := TakeSlices(x, slices);
    if sx.Err? {
      return Err(sx.error);
    }
    var sy := TakeSlices(y8, slices);
    assert sy.Ok?;
    SetWhereAbove(sy.value, sx.value, thresh, -1);
    return Ok(Split(sx.value, sy.value));
  }

  /** For ISBI ground truth (every label 0 or 255) every output label is -1
      (too bright), 0 (non-membrane) or 1 (membrane). */
  lemma IsbiSplitLabels(x: array3<real>, y0: array3<int>, y: array3<int>, slices: seq<int>, thresh: real, split: Split)
    requires SameShape(y0, y)
    requires forall z, r, c :: InBounds(y0, z, r, c) ==> y0[z, r, c] in {0, 255}
    requires forall z, r, c :: InBounds(y, z, r, c) ==> y[z, r, c] == Labels.IsbiLabel(y0[z, r, c])
    requires IsSplit(x, y, slices, thresh, split)
    ensures forall k, i, j :: InBounds(split.y, k, i, j) ==> split.y[k, i, j] in {-1, 0, 1}
  {
    forall k, i, j | InBounds(split.y, k, i, j)
      ensures split.y[k, i, j] in {-1, 0, 1}
    {
      var z := PyIndex(slices[k], y.Length0);
      assert InBounds(y0, z, i, j);
      assert y[z, i, j] in {0, 1};
    }
  }
}
