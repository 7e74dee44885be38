/** Helpers for 3-D volumes held in `array3`, the shape of the numpy arrays
    `X`, `Y`, `Mask` and `Yhat` (slices, rows, columns). */
module Volume {

  predicate InBounds<T>(a: array3<T>, z: int, r: int, c: int) {
    0 <= z < a.Length0 && 0 <= r < a.Length1 && 0 <= c < a.Length2
  }

  predicate SameShape<T, U>(a: array3<T>, b: array3<U>) {
    a.Length0 == b.Length0 && a.Length1 == b.Length1 && a.Length2 == b.Length2
  }

  /** The effect on one element of the masked assignment `A[A == from] = to`. */
  function Replace<T(==)>(v: T, from: T, to: T): T {
    if v == from then to else v
  }

  /** The set of values occurring in a volume (what `np.unique` lists, unordered). */
  function Values<T(==)>(a: array3<T>): set<T>
    reads a
  {
    set z, r, c | 0 <= z < a.Length0 && 0 <= r < a.Length1 && 0 <= c < a.Length2 :: a[z, r, c]
  }

  /** `A[A == from] = to`, in place. */
  method ReplaceWhere<T(==)>(a: array3<T>, from: T, to: T)
    modifies a
    ensures forall z, r, c :: InBounds(a, z, r, c) ==> a[z, r, c] == Replace(old(a[z, r, c]), from, to)
  {
    forall z, r, c | 0 <= z < a.Length0 && 0 <= r < a.Length1 && 0 <= c < a.Length2 && a[z, r, c] == from {
      a[z, r, c] := to;
    }
  }

  /** `Y[X > thresh] = v`, in place: the brightness mask. */
  method SetWhereAbove(y: array3<int>, x: array3<real>, thresh: real, v: int)
    requires SameShape(x, y)
    modifies y
    ensures forall z, r, c :: InBounds(y, z, r, c) ==>
      y[z, r, c] == if x[z, r, c] > thresh then v else old(y[z, r, c])
  {
    forall z, r, c | 0 <= z < y.Length0 && 0 <= r < y.Length1 && 0 <= c < y.Length2 && x[z, r, c] > thresh {
      y[z, r, c] := v;
    }
  }
}
