/** Label bookkeeping of src/emcnn.py: the list of omitted labels with the
    fraction of omitted pixels (`_omit_labels`), and the ISBI relabelling of
    `_load_data`.

    `_omit_labels` only asks which labels occur and how often, so it reads the
    label volume `Y` in flattened order, as a sequence. */
module Labels {
  import opened Common
  import opened Volume

  /** `np.sum(Y == v)`. */
  function Count(y: seq<int>, v: int): (n: nat)
    ensures n <= |y|
    ensures n > 0 <==> v in y
  {
    if |y| == 0 then 0
    else Count(y[..|y| - 1], v) + (if y[|y| - 1] == v then 1 else 0)
  }

  /** Number of pixels whose label lies in `s`. */
  function CountIn(y: seq<int>, s: set<int>): (n: nat)
    ensures n <= |y|
  {
    if |y| == 0 then 0
    else CountIn(y[..|y| - 1], s) + (if y[|y| - 1] in s then 1 else 0)
  }

  predicate StrictlyIncreasing(s: seq<int>) {
    forall i, j :: 0 <= i < j < |s| ==> s[i] < s[j]
  }

  predicate NoDuplicates(s: seq<int>) {
    forall i, j :: 0 <= i < j < |s| ==> s[i] != s[j]
  }

  /** Every element of a strictly increasing sequence after its head is
      larger than the head. */
  lemma HeadBelowTail(s: seq<int>, v: int)
    requires StrictlyIncreasing(s) && |s| > 0 && v in s[1..]
    ensures s[0] < v
  {
    var i :| 0 <= i < |s[1..]| && s[1..][i] == v;
    assert s[i + 1] == v;
  }

  /** A head below every element of an increasing tail keeps it increasing. */
  lemma ConsIncreasing(h: int, rest: seq<int>)
    requires StrictlyIncreasing(rest) && forall v :: v in rest ==> h < v
    ensures StrictlyIncreasing([h] + rest)
  {
    var r := [h] + rest;
    forall i, j | 0 <= i < j < |r|
      ensures r[i] < r[j]
    {
      assert r[j] == rest[j - 1];
      if i > 0 {
        assert r[i] == rest[i - 1];
      } else {
        assert rest[j - 1] in rest;
      }
    }
  }

  function InsertSorted(s: seq<int>, x: int): (r: seq<int>)
    requires StrictlyIncreasing(s)
    ensures StrictlyIncreasing(r)
    ensures forall v :: v in r <==> v in s || v == x
  {
    if |s| == 0 then [x]
    else if x < s[0] then [x] + s
    else if x == s[0] then s
    else
      var rest := InsertSorted(s[1..], x);
      assert s == [s[0]] + s[1..];
      assert forall v :: v in rest ==> s[0] < v by {
        forall v | v in rest
          ensures s[0] < v
        {
          if v != x {
            HeadBelowTail(s, v);
          }
        }
      }
      ConsIncreasing(s[0], rest);
      [s[0]] + rest
  }

  /** `np.unique(Y)`: the distinct labels, in increasing order. */
  function Unique(y: seq<int>): (r: seq<int>)
    ensures StrictlyIncreasing(r)
    ensures forall v :: v in r <==> v in y
  {
    if |y| == 0 then []
    else
      var init := y[..|y| - 1];
      var r := InsertSorted(Unique(init), y[|y| - 1]);
      assert y == init + [y[|y| - 1]];
      r
  }

  /** `u[u < 0]` for an increasing `u`. */
  function Negatives(u: seq<int>): (r: seq<int>)
    requires StrictlyIncreasing(u)
    ensures StrictlyIncreasing(r)
    ensures forall v :: v in r <==> v in u && v < 0
  {
    if |u| == 0 then []
    else
      var rest := Negatives(u[1..]);
      assert u == [u[0]] + u[1..];
      if u[0] < 0 then
        assert forall v :: v in rest ==> u[0] < v by {
          forall v | v in rest
            ensures u[0] < v
          {
            HeadBelowTail(u, v);
          }
        }
        ConsIncreasing(u[0], rest);
        [u[0]] + rest
      else rest
  }

  /** What `numOmitted` accumulates: `np.sum(Y == yi)` summed over the list. */
  function SumCounts(y: seq<int>, omit: seq<int>): nat {
    if |omit| == 0 then 0
    else SumCounts(y, omit[..|omit| - 1]) + Count(y, omit[|omit| - 1])
  }

  lemma {:induction false} CountInAdd(y: seq<int>, s: set<int>, x: int)
    requires x !in s
    ensures CountIn(y, s + {x}) == CountIn(y, s) + Count(y, x)
  {
    if |y| > 0 {
      CountInAdd(y[..|y| - 1], s, x);
    }
  }

  /** Without duplicate entries, the accumulated count is the number of
      pixels whose label is in the omit list, hence at most `Y.size`. */
  lemma {:induction false} SumCountsIsCountIn(y: seq<int>, omit: seq<int>)
    requires NoDuplicates(omit)
    ensures SumCounts(y, omit) == CountIn(y, set v | v in omit)
    ensures SumCounts(y, omit) <= |y|
  {
    if |omit| > 0 {
      var init, last := omit[..|omit| - 1], omit[|omit| - 1];
      SumCountsIsCountIn(y, init);
      assert (set v | v in omit) == (set v | v in init) + {last};
      CountInAdd(y, (set v | v in init), last);
    } else {
      assert (set v | v in omit) == {};
      CountInEmpty(y);
    }
  }

  lemma {:induction false} CountInEmpty(y: seq<int>)
    ensures CountIn(y, {}) == 0
  {
    if |y| > 0 {
      CountInEmpty(y[..|y| - 1]);
    }
  }

  /** A duplicate entry is counted twice: with `Y = [-1]` and
      `extraOmits = [-1]` the count exceeds the number of pixels. */
  lemma DuplicateOmitCountsTwice()
    ensures SumCounts([-1], Negatives(Unique([-1])) + [-1]) == 2
  {
    assert Unique([-1]) == [-1];
    assert Negatives([-1]) == [-1];
    assert [-1] + [-1] == [-1, -1];
    assert [-1, -1][..1] == [-1];
    assert [-1][..0] == [];
    assert Count([-1], -1) == 1 by { assert [-1][..0] == []; }
  }

  /** `_omit_labels(Y, extraOmits)`: every negative label of `Y` (distinct, in
      increasing order) followed by `extraOmits`, with the number of pixels
      omitted and its percentage of `Y.size`. For an empty volume there is no
      percentage (the division by `Y.size == 0`). */
  method OmitLabels(y: seq<int>, extraOmits: seq<int>) returns (omit: seq<int>, numOmitted: nat, pct: Option<real>)
    ensures |extraOmits| <= |omit| && omit[|omit| - |extraOmits|..] == extraOmits
    ensures var neg := omit[..|omit| - |extraOmits|];
      StrictlyIncreasing(neg) && forall v :: v in neg <==> v in y && v < 0
    ensures forall v :: v in omit <==> (v in y && v < 0) || v in extraOmits
    ensures numOmitted == SumCounts(y, omit)
    ensures NoDuplicates(omit) ==> numOmitted == CountIn(y, set v | v in omit) <= |y|
    ensures pct.None? <==> |y| == 0
    ensures pct.Some? ==> pct.value == 100.0 * numOmitted as real / |y| as real
    ensures pct.Some? && NoDuplicates(omit) ==> 0.0 <= pct.value <= 100.0
  {
    var labels := Unique(y);
    omit := Negatives(labels);
    ghost var neg := omit;
    if |extraOmits| > 0 {
      omit := omit + extraOmits;
    }
    assert omit == neg + extraOmits;
    assert omit[..|omit| - |extraOmits|] == neg && omit[|omit| - |extraOmits|..] == extraOmits;
    numOmitted := CountOmitted(y, omit);
    if NoDuplicates(omit) {
      SumCountsIsCountIn(y, omit);
    }
    if |y| == 0 {
      pct := None;
    } else {
      pct := Some(100.0 * numOmitted as real / |y| as real);
      if NoDuplicates(omit) {
        PercentBound(numOmitted, |y|);
      }
    }
  }

  /** The loop `for yi in omitLabels: numOmitted += np.sum(Y == yi)`. */
  method CountOmitted(y: seq<int>, omit: seq<int>) returns (n: nat)
    ensures n == SumCounts(y, omit)
  {
    n := 0;
    for i := 0 to |omit|
      invariant n == SumCounts(y, omit[..i])
    {
      assert omit[..i + 1][..i] == omit[..i];
      n := n + Count(y, omit[i]);
    }
    assert omit[..|omit|] == omit;
  }

  lemma PercentBound(k: nat, n: nat)
    requires 0 < n && k <= n
    ensures 0.0 <= 100.0 * k as real / n as real <= 100.0
  {
    assert k as real / n as real <= 1.0;
  }

  /** The ISBI convention: 0 (membrane) becomes 1, 255 (non-membrane)
      becomes 0, by `Y[Y==0] = 1` followed by `Y[Y==255] = 0`. */
  function IsbiLabel(v: int): int {
    Replace(Replace(v, 0, 1), 255, 0)
  }

  lemma IsbiLabelValues(v: int)
    ensures v == 0 ==> IsbiLabel(v) == 1
    ensures v == 255 ==> IsbiLabel(v) == 0
    ensures v != 0 && v != 255 ==> IsbiLabel(v) == v
  {
  }

  /** The two assignments do not commute: in the other order both 0 and 255
      end up as 1. */
  lemma RemapOrderMatters()
    ensures Replace(Replace(255, 255, 0), 0, 1) == 1
    ensures Replace(Replace(0, 255, 0), 0, 1) == 1
  {
  }

  /** The special case of `_load_data`: when the distinct labels are exactly
      `[0, 255]`, relabel in place by the ISBI convention; otherwise leave `Y`
      alone. After a relabelling the labels are exactly `{0, 1}`. */
  method RemapIsbiLabels(y: array3<int>) returns (remapped: bool)
    modifies y
    ensures remapped <==> old(Values(y)) == {0, 255}
    ensures forall z, r, c :: InBounds(y, z, r, c) ==>
      y[z, r, c] == if remapped then IsbiLabel(old(y[z, r, c])) else old(y[z, r, c])
    ensures remapped ==> Values(y) == {0, 1}
  {
    remapped := Values(y) == {0, 255};
    if remapped {
      ghost var vals := Values(y);
      assert 0 in vals && 255 in vals;
      ghost var z0, r0, c0 :| InBounds(y, z0, r0, c0) && y[z0, r0, c0] == 0;
      ghost var z1, r1, c1 :| InBounds(y, z1, r1, c1) && y[z1, r1, c1] == 255;
      assert forall z, r, c :: InBounds(y, z, r, c) ==> y[z, r, c] in vals;
      ReplaceWhere(y, 0, 1);
      ReplaceWhere(y, 255, 0);
      assert y[z0, r0, c0] == 1 && y[z1, r1, c1] == 0;
      assert forall z, r, c :: InBounds(y, z, r, c) ==> y[z, r, c] in {0, 1};
      assert Values(y) == {0, 1};
    }
  }
}
