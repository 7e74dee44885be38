/** The data augmentation of `_xform_minibatch`: the eight symmetries of the
    square (four rotations, two mirror images, two diagonal flips), applied to
    every tile of a minibatch along its last two axes.

    The ops are written as in the source: `M1`, `M2` and `D1` are primitive,
    `R1`, `R2`, `R3` and `D2` are compositions of them. */
module Symmetry {

  /** A tile: a list of rows. */
  type Tile<T> = seq<seq<T>>

  function Cols<T>(t: Tile<T>): nat {
    if |t| == 0 then 0 else |t[0]|
  }

  /** Every row has the same length, as in a numpy array. */
  predicate Rect<T>(t: Tile<T>) {
    forall i :: 0 <= i < |t| ==> |t[i]| == Cols(t)
  }

  /** An `n` by `n` tile (`batchDim[2] == batchDim[3]`: tiles must be square). */
  predicate IsSquare<T>(t: Tile<T>, n: nat) {
    |t| == n && forall i :: 0 <= i < n ==> |t[i]| == n
  }

  function Reverse<T>(s: seq<T>): (r: seq<T>)
    ensures |r| == |s|
  {
    seq(|s|, j requires 0 <= j < |s| => s[|s| - 1 - j])
  }

  /** `X[:, :, ::-1, :]`: the rows in reverse order. */
  function M1<T>(t: Tile<T>): (r: Tile<T>)
    ensures |r| == |t|
    ensures Rect(t) ==> Rect(r) && Cols(r) == Cols(t)
  {
    seq(|t|, i requires 0 <= i < |t| => t[|t| - 1 - i])
  }

  /** `X[:, :, :, ::-1]`: every row reversed. */
  function M2<T>(t: Tile<T>): (r: Tile<T>)
    ensures |r| == |t|
    ensures Rect(t) ==> Rect(r) && Cols(r) == Cols(t)
  {
    seq(|t|, i requires 0 <= i < |t| => Reverse(t[i]))
  }

  /** `np.transpose(X, [0, 1, 3, 2])`: rows become columns. */
  function D1<T>(t: Tile<T>): (r: Tile<T>)
    requires Rect(t)
    ensures |r| == Cols(t) && Rect(r)
    ensures |t| > 0 && Cols(t) > 0 ==> Cols(r) == |t|
  {
    seq(Cols(t), i requires 0 <= i < Cols(t) => seq(|t|, j requires 0 <= j < |t| => t[j][i]))
  }

  function R0<T>(t: Tile<T>): Tile<T> { t }

  /** `D1(M2(X))`, documented in the source as rot90 on the last two axes. */
  function R1<T>(t: Tile<T>): Tile<T>
    requires Rect(t)
  {
    D1(M2(t))
  }

  function R2<T>(t: Tile<T>): Tile<T> { M2(M1(t)) }

  function D2<T>(t: Tile<T>): Tile<T>
    requires Rect(t)
  {
    R1(M1(t))
  }

  function R3<T>(t: Tile<T>): Tile<T>
    requires Rect(t)
  {
    D2(M2(t))
  }

  /** The eight ops of the list `symmetries` that `choice` picks from. */
  datatype Op = OpR0 | OpR1 | OpR2 | OpR3 | OpM1 | OpM2 | OpD1 | OpD2

  function Apply<T>(op: Op, t: Tile<T>): Tile<T>
    requires Rect(t)
  {
    match op
    case OpR0 => R0(t)
    case OpR1 => R1(t)
    case OpR2 => R2(t)
    case OpR3 => R3(t)
    case OpM1 => M1(t)
    case OpM2 => M2(t)
    case OpD1 => D1(t)
    case OpD2 => D2(t)
  }

  /** The position in the input tile that entry `(i, j)` of an op's result is
      read from: each op is a permutation of the positions of an `n` by `n` tile. */
  function Source(op: Op, n: nat, i: int, j: int): (int, int) {
    match op
    case OpR0 => (i, j)
    case OpR1 => (j, n - 1 - i)
    case OpR2 => (n - 1 - i, n - 1 - j)
    case OpR3 => (n - 1 - j, i)
    case OpM1 => (n - 1 - i, j)
    case OpM2 => (i, n - 1 - j)
    case OpD1 => (j, i)
    case OpD2 => (n - 1 - j, n - 1 - i)
  }

  lemma SquareIsRect<T>(t: Tile<T>, n: nat)
    requires IsSquare(t, n)
    ensures Rect(t) && (n > 0 ==> Cols(t) == n)
  {
  }

  lemma M1At<T>(t: Tile<T>, n: nat, i: int, j: int)
    requires IsSquare(t, n) && 0 <= i < n && 0 <= j < n
    ensures IsSquare(M1(t), n) && M1(t)[i][j] == t[n - 1 - i][j]
  {
    SquareIsRect(t, n);
  }

  lemma M2At<T>(t: Tile<T>, n: nat, i: int, j: int)
    requires IsSquare(t, n) && 0 <= i < n && 0 <= j < n
    ensures IsSquare(M2(t), n) && M2(t)[i][j] == t[i][n - 1 - j]
  {
    SquareIsRect(t, n);
  }

  lemma D1At<T>(t: Tile<T>, n: nat, i: int, j: int)
    requires IsSquare(t, n) && 0 <= i < n && 0 <= j < n
    ensures Rect(t) && IsSquare(D1(t), n) && D1(t)[i][j] == t[j][i]
  {
    SquareIsRect(t, n);
  }

  lemma R1At<T>(t: Tile<T>, n: nat, i: int, j: int)
    requires IsSquare(t, n) && 0 <= i < n && 0 <= j < n
    ensures Rect(t) && IsSquare(R1(t), n) && R1(t)[i][j] == t[j][n - 1 - i]
  {
    SquareIsRect(t, n);
    M2At(t, n, j, i);
    D1At(M2(t), n, i, j);
  }

  lemma R2At<T>(t: Tile<T>, n: nat, i: int, j: int)
    requires IsSquare(t, n) && 0 <= i < n && 0 <= j < n
    ensures IsSquare(R2(t), n) && R2(t)[i][j] == t[n - 1 - i][n - 1 - j]
  {
    M1At(t, n, i, n - 1 - j);
    M2At(M1(t), n, i, j);
  }

  lemma D2At<T>(t: Tile<T>, n: nat, i: int, j: int)
    requires IsSquare(t, n) && 0 <= i < n && 0 <= j < n
    ensures Rect(t) && IsSquare(D2(t), n) && D2(t)[i][j] == t[n - 1 - j][n - 1 - i]
  {
    SquareIsRect(t, n);
    M1At(t, n, j, n - 1 - i);
    R1At(M1(t), n, i, j);
  }

  lemma R3At<T>(t: Tile<T>, n: nat, i: int, j: int)
    requires IsSquare(t, n) && 0 <= i < n && 0 <= j < n
    ensures Rect(t) && IsSquare(R3(t), n) && R3(t)[i][j] == t[n - 1 - j][i]
  {
    SquareIsRect(t, n);
    M2At(t, n, n - 1 - j, n - 1 - i);
    D2At(M2(t), n, i, j);
  }

  /** Every op maps a square tile to a square tile of the same side, and its
      entry `(i, j)` is the input's entry at `Source(op, n, i, j)`. */
  lemma ApplyAt<T>(op: Op, t: Tile<T>, n: nat, i: int, j: int)
    requires IsSquare(t, n)
    requires 0 <= i < n && 0 <= j < n
    ensures Rect(t)
    ensures IsSquare(Apply(op, t), n)
    ensures 0 <= Source(op, n, i, j).0 < n && 0 <= Source(op, n, i, j).1 < n
    ensures Apply(op, t)[i][j] == t[Source(op, n, i, j).0][Source(op, n, i, j).1]
  {
    SquareIsRect(t, n);
    match op
    case OpR0 =>
    case OpM1 => M1At(t, n, i, j);
    case OpM2 => M2At(t, n, i, j);
    case OpD1 => D1At(t, n, i, j);
    case OpR1 => R1At(t, n, i, j);
    case OpR2 => R2At(t, n, i, j);
    case OpD2 => D2At(t, n, i, j);
    case OpR3 => R3At(t, n, i, j);
  }

  /** Square in, square out: `X2[...] = op(X)` into an array of `X.shape`. */
  lemma ApplyKeepsShape<T>(op: Op, t: Tile<T>, n: nat)
    requires IsSquare(t, n)
    ensures Rect(t) && IsSquare(Apply(op, t), n)
  {
    SquareIsRect(t, n);
    if n > 0 {
      ApplyAt(op, t, n, 0, 0);
    } else {
      ApplyEmpty(op, t);
    }
  }

  lemma ApplyEmpty<T>(op: Op, t: Tile<T>)
    requires t == []
    ensures Rect(t) && Apply(op, t) == []
  {
    match op
    case OpR0 =>
    case OpM1 =>
    case OpM2 =>
    case OpD1 =>
    case OpR2 =>
    case OpR1 =>
      assert M2(t) == [];
    case OpD2 =>
      assert M2(M1(t)) == [];
    case OpR3 =>
      assert M2(M1(M2(t))) == [];
  }

  /** Two square tiles agreeing entry by entry are equal. */
  lemma SquareExt<T>(a: Tile<T>, b: Tile<T>, n: nat)
    requires IsSquare(a, n) && IsSquare(b, n)
    requires forall i, j :: 0 <= i < n && 0 <= j < n ==> a[i][j] == b[i][j]
    ensures a == b
  {
    forall i | 0 <= i < n ensures a[i] == b[i] {
      assert forall j :: 0 <= j < n ==> a[i][j] == b[i][j];
    }
  }

  /** `M1`, `M2` and `D1` are involutions. */
  lemma {:induction false} M1M1<T>(t: Tile<T>)
    ensures M1(M1(t)) == t
  {
    assert forall i :: 0 <= i < |t| ==> M1(M1(t))[i] == t[i];
  }

  lemma {:induction false} M2M2<T>(t: Tile<T>)
    ensures M2(M2(t)) == t
  {
    forall i | 0 <= i < |t| ensures M2(M2(t))[i] == t[i] {
      assert Reverse(Reverse(t[i])) == t[i];
    }
  }

  lemma {:induction false} D1D1<T>(t: Tile<T>, n: nat)
    requires IsSquare(t, n)
    ensures Rect(t) && D1(D1(t)) == t
  {
    SquareIsRect(t, n);
    var d := D1(t);
    if n == 0 {
      assert d == [];
    } else {
      SquareIsRect(d, n);
      SquareExt(D1(d), t, n);
    }
  }

  /** `R1` is a quarter turn: applied four times it is the identity, and
      `R2` and `R3` are its square and its cube. */
  lemma R1Twice<T>(t: Tile<T>, n: nat)
    requires IsSquare(t, n)
    ensures Rect(t) && IsSquare(R1(t), n) && R1(R1(t)) == R2(t)
  {
    ApplyKeepsShape(OpR1, t, n);
    ApplyKeepsShape(OpR2, t, n);
    var a := R1(t);
    forall i, j | 0 <= i < n && 0 <= j < n ensures R1(a)[i][j] == R2(t)[i][j] {
      ApplyAt(OpR1, a, n, i, j);
      ApplyAt(OpR1, t, n, j, n - 1 - i);
      ApplyAt(OpR2, t, n, i, j);
    }
    ApplyKeepsShape(OpR1, a, n);
    SquareExt(R1(a), R2(t), n);
  }

  lemma R1Thrice<T>(t: Tile<T>, n: nat)
    requires IsSquare(t, n)
    ensures Rect(t) && IsSquare(R1(t), n) && IsSquare(R1(R1(t)), n)
    ensures R1(R1(R1(t))) == R3(t)
  {
    R1Twice(t, n);
    ApplyKeepsShape(OpR2, t, n);
    ApplyKeepsShape(OpR3, t, n);
    var a := R2(t);
    forall i, j | 0 <= i < n && 0 <= j < n ensures R1(a)[i][j] == R3(t)[i][j] {
      ApplyAt(OpR1, a, n, i, j);
      ApplyAt(OpR2, t, n, j, n - 1 - i);
      ApplyAt(OpR3, t, n, i, j);
    }
    ApplyKeepsShape(OpR1, a, n);
    SquareExt(R1(a), R3(t), n);
  }

  lemma R1FourTimes<T>(t: Tile<T>, n: nat)
    requires IsSquare(t, n)
    ensures Rect(t) && IsSquare(R1(R1(R1(t))), n)
    ensures R1(R1(R1(R1(t)))) == t
  {
    R1Thrice(t, n);
    ApplyKeepsShape(OpR3, t, n);
    var a := R3(t);
    forall i, j | 0 <= i < n && 0 <= j < n ensures R1(a)[i][j] == t[i][j] {
      ApplyAt(OpR1, a, n, i, j);
      ApplyAt(OpR3, t, n, j, n - 1 - i);
    }
    ApplyKeepsShape(OpR1, a, n);
    SquareExt(R1(a), t, n);
  }

  /** `R2` and `D2` are involutions too. */
  lemma R2R2<T>(t: Tile<T>, n: nat)
    requires IsSquare(t, n)
    ensures R2(R2(t)) == t
  {
    ApplyKeepsShape(OpR2, t, n);
    var a := R2(t);
    forall i, j | 0 <= i < n && 0 <= j < n ensures R2(a)[i][j] == t[i][j] {
      ApplyAt(OpR2, a, n, i, j);
      ApplyAt(OpR2, t, n, n - 1 - i, n - 1 - j);
    }
    ApplyKeepsShape(OpR2, a, n);
    SquareExt(R2(a), t, n);
  }

  lemma D2D2<T>(t: Tile<T>, n: nat)
    requires IsSquare(t, n)
    ensures Rect(t) && IsSquare(D2(t), n) && D2(D2(t)) == t
  {
    ApplyKeepsShape(OpD2, t, n);
    var a := D2(t);
    forall i, j | 0 <= i < n && 0 <= j < n ensures D2(a)[i][j] == t[i][j] {
      ApplyAt(OpD2, a, n, i, j);
      ApplyAt(OpD2, t, n, n - 1 - j, n - 1 - i);
    }
    ApplyKeepsShape(OpD2, a, n);
    SquareExt(D2(a), t, n);
  }

  /** The tile at (example `s`, channel `ch`) of a minibatch array. */
  function TileAt(x: array4<real>, s: nat, ch: nat): (t: Tile<real>)
    requires s < x.Length0 && ch < x.Length1
    reads x
  {
    seq(x.Length2, i requires 0 <= i < x.Length2 reads x =>
      seq(x.Length3, j requires 0 <= j < x.Length3 reads x => x[s, ch, i, j]))
  }

  /** `X2 = np.zeros(X.shape); X2[...] = op(X)`: a fresh C-ordered array
      holding `op` applied to every tile; the first two axes are untouched. */
  method XformMinibatch(x: array4<real>, op: Op) returns (x2: array4<real>)
    requires x.Length2 == x.Length3
    ensures fresh(x2)
    ensures x2.Length0 == x.Length0 && x2.Length1 == x.Length1
    ensures x2.Length2 == x.Length2 && x2.Length3 == x.Length3
    ensures forall s, ch :: 0 <= s < x.Length0 && 0 <= ch < x.Length1 ==>
      Rect(TileAt(x, s, ch)) && TileAt(x2, s, ch) == Apply(op, TileAt(x, s, ch))
  {
    var n := x.Length2;
    x2 := new real[x.Length0, x.Length1, n, n];
    forall s, ch, i, j | 0 <= s < x.Length0 && 0 <= ch < x.Length1 && 0 <= i < n && 0 <= j < n {
      x2[s, ch, i, j] := x[s, ch, Source(op, n, i, j).0, Source(op, n, i, j).1];
    }
    forall s, ch | 0 <= s < x.Length0 && 0 <= ch < x.Length1
      ensures Rect(TileAt(x, s, ch)) && TileAt(x2, s, ch) == Apply(op, TileAt(x, s, ch))
    {
      var t := TileAt(x, s, ch);
      assert IsSquare(t, n);
      ApplyKeepsShape(op, t, n);
      forall i, j | 0 <= i < n && 0 <= j < n ensures TileAt(x2, s, ch)[i][j] == Apply(op, t)[i][j] {
        ApplyAt(op, t, n, i, j);
      }
      SquareExt(TileAt(x2, s, ch), Apply(op, t), n);
    }
  }
}
