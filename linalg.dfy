/** Exact linear algebra over `real` for the small numpy expressions the core
    evaluates: vectors are `seq<real>`, matrices are sequences of rows.
    Sums are taken over prefixes (the last element is peeled off), which is
    also the order in which the control laws accumulate. */
module LinAlg {
  import opened Wrappers

  type Vector = seq<real>
  type Matrix = seq<seq<real>>

  /** `m` has `rows` rows of `cols` entries each (numpy's `m.shape == (rows, cols)`). */
  predicate IsMatrix(m: Matrix, rows: nat, cols: nat) {
    |m| == rows && forall i :: 0 <= i < rows ==> |m[i]| == cols
  }

  /** `m[j][i] == m[i][j]` for every entry. */
  predicate IsSymmetric(m: Matrix) {
    forall i, j :: 0 <= i < |m| && 0 <= j < |m| ==>
      j < |m[i]| && i < |m[j]| && m[i][j] == m[j][i]
  }

  /** Python's rule for `xs[k]` on a sequence of length `len`: a negative
      index counts from the end, anything else outside the range raises. */
  function PyIndex(k: int, len: nat): (r: Option<nat>)
    ensures r.Some? <==> -(len as int) <= k < len
    ensures r.Some? ==> r.value < len
    ensures 0 <= k < len ==> r == Some(k)
    ensures -(len as int) <= k < 0 ==> r == Some(k + len)
  {
    var n: int := len;
    if 0 <= k < n then Some(k) else if -n <= k < 0 then Some(k + n) else None
  }

  // ---------------------------------------------------------------- vectors

  function Zero(n: nat): (r: Vector)
    ensures |r| == n && forall i :: 0 <= i < n ==> r[i] == 0.0
  {
    seq(n, i => 0.0)
  }

  function Add(u: Vector, v: Vector): (r: Vector)
    requires |u| == |v|
    ensures |r| == |u| && forall i :: 0 <= i < |u| ==> r[i] == u[i] + v[i]
  {
    seq(|u|, i requires 0 <= i < |u| => u[i] + v[i])
  }

  function Sub(u: Vector, v: Vector): (r: Vector)
    requires |u| == |v|
    ensures |r| == |u| && forall i :: 0 <= i < |u| ==> r[i] == u[i] - v[i]
  {
    seq(|u|, i requires 0 <= i < |u| => u[i] - v[i])
  }

  function Scale(c: real, v: Vector): (r: Vector)
    ensures |r| == |v| && forall i :: 0 <= i < |v| ==> r[i] == c * v[i]
  {
    seq(|v|, i requires 0 <= i < |v| => c * v[i])
  }

  function Neg(v: Vector): (r: Vector)
    ensures |r| == |v| && forall i :: 0 <= i < |v| ==> r[i] == -v[i]
  {
    seq(|v|, i requires 0 <= i < |v| => -v[i])
  }

  /** numpy's element-wise `np.abs`. */
  function Abs(v: Vector): (r: Vector)
    ensures |r| == |v|
    ensures forall i :: 0 <= i < |v| ==> r[i] >= 0.0 && (r[i] == v[i] || r[i] == -v[i])
  {
    seq(|v|, i requires 0 <= i < |v| => if v[i] < 0.0 then -v[i] else v[i])
  }

  function Sum(v: Vector): real
    decreases |v|
  {
    if |v| == 0 then 0.0 else Sum(v[..|v| - 1]) + v[|v| - 1]
  }

  function Dot(u: Vector, v: Vector): real
    requires |u| == |v|
    decreases |u|
  {
    if |u| == 0 then 0.0 else Dot(u[..|u| - 1], v[..|v| - 1]) + u[|u| - 1] * v[|v| - 1]
  }

  // --------------------------------------------------------------- matrices

  function MatVec(m: Matrix, v: Vector): (r: Vector)
    requires forall i :: 0 <= i < |m| ==> |m[i]| == |v|
    ensures |r| == |m| && forall i :: 0 <= i < |m| ==> r[i] == Dot(m[i], v)
  {
    seq(|m|, i requires 0 <= i < |m| => Dot(m[i], v))
  }

  function MatAdd(a: Matrix, b: Matrix): (r: Matrix)
    requires |a| == |b| && forall i :: 0 <= i < |a| ==> |a[i]| == |b[i]|
    ensures |r| == |a|
    ensures forall i :: 0 <= i < |a| ==> |r[i]| == |a[i]|
    ensures forall i, j :: 0 <= i < |a| && 0 <= j < |a[i]| ==> r[i][j] == a[i][j] + b[i][j]
  {
    seq(|a|, i requires 0 <= i < |a| => Add(a[i], b[i]))
  }

  function MatSub(a: Matrix, b: Matrix): (r: Matrix)
    requires |a| == |b| && forall i :: 0 <= i < |a| ==> |a[i]| == |b[i]|
    ensures |r| == |a|
    ensures forall i :: 0 <= i < |a| ==> |r[i]| == |a[i]|
    ensures forall i, j :: 0 <= i < |a| && 0 <= j < |a[i]| ==> r[i][j] == a[i][j] - b[i][j]
  {
    seq(|a|, i requires 0 <= i < |a| => Sub(a[i], b[i]))
  }

  /** numpy's `np.diag(d)` for a one-dimensional `d`. */
  function Diag(d: Vector): (r: Matrix)
    ensures IsMatrix(r, |d|, |d|)
    ensures forall i, j :: 0 <= i < |d| && 0 <= j < |d| ==> r[i][j] == if i == j then d[i] else 0.0
  {
    seq(|d|, i requires 0 <= i < |d| => seq(|d|, j requires 0 <= j < |d| => if i == j then d[i] else 0.0))
  }

  /** numpy's `np.zeros((rows, cols))`. */
  function ZeroMatrix(rows: nat, cols: nat): (r: Matrix)
    ensures IsMatrix(r, rows, cols)
    ensures forall i, j :: 0 <= i < rows && 0 <= j < cols ==> r[i][j] == 0.0
  {
    seq(rows, i => Zero(cols))
  }

  /** numpy's `np.eye(n)`. */
  function Identity(n: nat): (r: Matrix)
    ensures IsMatrix(r, n, n)
    ensures forall i, j :: 0 <= i < n && 0 <= j < n ==> r[i][j] == if i == j then 1.0 else 0.0
  {
    Diag(seq(n, i => 1.0))
  }

  /** numpy's `np.sum(m, axis=1)`. */
  function RowSums(m: Matrix): (r: Vector)
    ensures |r| == |m| && forall i :: 0 <= i < |m| ==> r[i] == Sum(m[i])
  {
    seq(|m|, i requires 0 <= i < |m| => Sum(m[i]))
  }

  // ------------------------------------------------- stacking and reshaping

  /** numpy's `np.vstack` of column vectors: the blocks one after another. */
  function Flatten(ws: seq<Vector>): Vector
    decreases |ws|
  {
    if |ws| == 0 then [] else Flatten(ws[..|ws| - 1]) + ws[|ws| - 1]
  }

  /** numpy's `np.tile(v, (n, 1))` of a column vector: `v` repeated `n` times. */
  function Tile(v: Vector, n: nat): (r: Vector)
    ensures |r| == n * |v|
  {
    if n == 0 then [] else Tile(v, n - 1) + v
  }

  /** numpy's `u.reshape(n, 2)` of a vector of length `2 n`. */
  function Reshape2(u: Vector, n: nat): (r: Matrix)
    requires |u| == 2 * n
    ensures IsMatrix(r, n, 2)
    ensures forall i :: 0 <= i < n ==> r[i] == [u[2 * i], u[2 * i + 1]]
  {
    seq(n, i requires 0 <= i < n => u[2 * i..2 * i + 2])
  }

  /** One row of `np.kron(A, B)`: the row `a` of `A` with each entry
      replaced by that entry times the row `b` of `B`. */
  function KronRow(a: Vector, b: Vector): (r: Vector)
    ensures |r| == |a| * |b|
    decreases |a|
  {
    if |a| == 0 then [] else KronRow(a[..|a| - 1], b) + Scale(a[|a| - 1], b)
  }

  /** numpy's `np.kron(A, B)` for `A` with `q` columns and `B` with `s` columns:
      rows `i |B| + k` is `KronRow(A[i], B[k])`. */
  function Kron(A: Matrix, B: Matrix, q: nat, s: nat): (r: Matrix)
    requires IsMatrix(A, |A|, q) && IsMatrix(B, |B|, s)
    ensures IsMatrix(r, |A| * |B|, q * s)
    decreases |A|
  {
    if |A| == 0 then []
    else Kron(A[..|A| - 1], B, q, s) + seq(|B|, k requires 0 <= k < |B| => KronRow(A[|A| - 1], B[k]))
  }

  /** `Σ_j a[j] · ws[j]` for vectors `ws[j]` of length `dim`. */
  function WeightedSum(a: Vector, ws: seq<Vector>, dim: nat): (r: Vector)
    requires |a| == |ws| && forall j :: 0 <= j < |ws| ==> |ws[j]| == dim
    ensures |r| == dim
    decreases |a|
  {
    if |a| == 0 then Zero(dim)
    else Add(WeightedSum(a[..|a| - 1], ws[..|ws| - 1], dim), Scale(a[|a| - 1], ws[|ws| - 1]))
  }

  /** `Σ_{s ∈ slots} a[s] · ws[s]`, accumulated in the order of `slots`: the sum
      over a neighbour list. */
  function SlotSum(a: Vector, ws: seq<Vector>, slots: seq<nat>, dim: nat): (r: Vector)
    requires forall j :: 0 <= j < |ws| ==> |ws[j]| == dim
    requires forall t :: 0 <= t < |slots| ==> slots[t] < |a| && slots[t] < |ws|
    ensures |r| == dim
    decreases |slots|
  {
    if |slots| == 0 then Zero(dim)
    else
      var s := slots[|slots| - 1];
      Add(SlotSum(a, ws, slots[..|slots| - 1], dim), Scale(a[s], ws[s]))
  }

  // ------------------------------------------------------------------ lemmas

  lemma {:induction false} SumSub(u: Vector, v: Vector)
    requires |u| == |v|
    ensures Sum(Sub(u, v)) == Sum(u) - Sum(v)
    decreases |u|
  {
    if |u| > 0 {
      var n := |u| - 1;
      assert Sub(u, v)[..n] == Sub(u[..n], v[..n]);
      SumSub(u[..n], v[..n]);
    }
  }

  lemma {:induction false} SumStep(v: Vector, m: nat)
    requires m < |v|
    ensures Sum(v[..m + 1]) == Sum(v[..m]) + v[m]
  {
    assert v[..m + 1][..m] == v[..m];
  }

  lemma {:induction false} SumOfSix(v: Vector)
    requires |v| == 6
    ensures Sum(v) == v[0] + v[1] + v[2] + v[3] + v[4] + v[5]
  {
    assert v[..0] == [];
    SumStep(v, 0);
    SumStep(v, 1);
    SumStep(v, 2);
    SumStep(v, 3);
    SumStep(v, 4);
    SumStep(v, 5);
    assert v[..6] == v;
  }

  /** A vector that is zero except at `i` sums to its entry at `i`. */
  lemma {:induction false} SumSingle(v: Vector, i: nat)
    requires i < |v|
    requires forall j :: 0 <= j < |v| && j != i ==> v[j] == 0.0
    ensures Sum(v) == v[i]
    decreases |v|
  {
    var n := |v| - 1;
    if n == i {
      SumZero(v[..n]);
    } else {
      SumSingle(v[..n], i);
    }
  }

  lemma {:induction false} SumZero(v: Vector)
    requires forall j :: 0 <= j < |v| ==> v[j] == 0.0
    ensures Sum(v) == 0.0
    decreases |v|
  {
    if |v| > 0 {
      SumZero(v[..|v| - 1]);
    }
  }

  lemma {:induction false} AddNegIsSub(a: Vector, b: Vector)
    requires |a| == |b|
    ensures Add(Neg(a), b) == Sub(b, a)
  {
    forall c | 0 <= c < |a| ensures Add(Neg(a), b)[c] == Sub(b, a)[c] { }
  }

  lemma {:induction false} SubZero(v: Vector)
    ensures Sub(v, Zero(|v|)) == v
  {
    forall c | 0 <= c < |v| ensures Sub(v, Zero(|v|))[c] == v[c] { }
  }

  lemma {:induction false} AddSubCancel(a: Vector, b: Vector)
    requires |a| == |b|
    ensures Sub(Add(a, b), b) == a
  {
    forall c | 0 <= c < |a| ensures Sub(Add(a, b), b)[c] == a[c] { }
  }

  lemma {:induction false} DotStep(u: Vector, v: Vector, m: nat)
    requires |u| == |v| && m < |u|
    ensures Dot(u[..m + 1], v[..m + 1]) == Dot(u[..m], v[..m]) + u[m] * v[m]
  {
    assert u[..m + 1][..m] == u[..m];
    assert v[..m + 1][..m] == v[..m];
  }

  lemma {:induction false} DotOfFour(u: Vector, v: Vector)
    requires |u| == |v| == 4
    ensures Dot(u, v) == u[0] * v[0] + u[1] * v[1] + u[2] * v[2] + u[3] * v[3]
  {
    assert u[..0] == [] && v[..0] == [];
    DotStep(u, v, 0);
    DotStep(u, v, 1);
    DotStep(u, v, 2);
    DotStep(u, v, 3);
    assert u[..4] == u && v[..4] == v;
  }

  lemma {:induction false} DotOfTwo(u: Vector, v: Vector)
    requires |u| == |v| == 2
    ensures Dot(u, v) == u[0] * v[0] + u[1] * v[1]
  {
    assert u[..0] == [] && v[..0] == [];
    DotStep(u, v, 0);
    DotStep(u, v, 1);
    assert u[..2] == u && v[..2] == v;
  }

  lemma {:induction false} DotAppend(x: Vector, y: Vector, u: Vector, v: Vector)
    requires |x| == |u| && |y| == |v|
    ensures Dot(x + y, u + v) == Dot(x, u) + Dot(y, v)
    decreases |y|
  {
    if |y| > 0 {
      var m := |y| - 1;
      assert (x + y)[..|x + y| - 1] == x + y[..m];
      assert (u + v)[..|u + v| - 1] == u + v[..m];
      DotAppend(x, y[..m], u, v[..m]);
    } else {
      assert x + y == x;
      assert u + v == u;
    }
  }

  lemma {:induction false} DotScaleLeft(c: real, b: Vector, w: Vector)
    requires |b| == |w|
    ensures Dot(Scale(c, b), w) == c * Dot(b, w)
    decreases |b|
  {
    if |b| > 0 {
      var m := |b| - 1;
      forall t | 0 <= t < m ensures Scale(c, b)[..m][t] == Scale(c, b[..m])[t] { }
      assert Scale(c, b)[..m] == Scale(c, b[..m]);
      DotScaleLeft(c, b[..m], w[..m]);
    }
  }

  lemma {:induction false} DotAddRight(b: Vector, w: Vector, w': Vector)
    requires |b| == |w| == |w'|
    ensures Dot(b, Add(w, w')) == Dot(b, w) + Dot(b, w')
    decreases |b|
  {
    if |b| > 0 {
      var m := |b| - 1;
      var s := Add(w, w');
      assert s[..m] == Add(w[..m], w'[..m]);
      DotAddRight(b[..m], w[..m], w'[..m]);
      DistributeStep(Dot(b[..m], s[..m]), Dot(b[..m], w[..m]), Dot(b[..m], w'[..m]), b[m], s[m], w[m], w'[m]);
    }
  }

  /** The arithmetic of one step of `DotAddRight`. */
  lemma {:induction false} DistributeStep(d: real, e: real, e': real, x: real, z: real, y: real, y': real)
    requires d == e + e' && z == y + y'
    ensures d + x * z == (e + x * y) + (e' + x * y')
  {
  }

  lemma {:induction false} DotScaleRight(b: Vector, c: real, w: Vector)
    requires |b| == |w|
    ensures Dot(b, Scale(c, w)) == c * Dot(b, w)
    decreases |b|
  {
    if |b| > 0 {
      var m := |b| - 1;
      var s := Scale(c, w);
      forall t | 0 <= t < m ensures s[..m][t] == Scale(c, w[..m])[t] { }
      assert s[..m] == Scale(c, w[..m]);
      DotScaleRight(b[..m], c, w[..m]);
      ScaleStep(Dot(b[..m], w[..m]), c, b[m], w[m]);
    }
  }

  /** The arithmetic of one step of `DotScaleRight`. */
  lemma {:induction false} ScaleStep(e: real, c: real, x: real, y: real)
    ensures c * e + x * (c * y) == c * (e + x * y)
  {
  }

  lemma {:induction false} DotZeroRight(b: Vector)
    ensures Dot(b, Zero(|b|)) == 0.0
    decreases |b|
  {
    if |b| > 0 {
      var m := |b| - 1;
      assert Zero(|b|)[..m] == Zero(m);
      DotZeroRight(b[..m]);
    }
  }

  /** The matrix-vector product is linear in the vector. */
  lemma {:induction false} MatVecAdd(m: Matrix, u: Vector, v: Vector)
    requires |u| == |v| && forall i :: 0 <= i < |m| ==> |m[i]| == |u|
    ensures MatVec(m, Add(u, v)) == Add(MatVec(m, u), MatVec(m, v))
  {
    forall i | 0 <= i < |m| ensures MatVec(m, Add(u, v))[i] == Add(MatVec(m, u), MatVec(m, v))[i] {
      DotAddRight(m[i], u, v);
    }
  }

  lemma {:induction false} MatVecScale(m: Matrix, c: real, u: Vector)
    requires forall i :: 0 <= i < |m| ==> |m[i]| == |u|
    ensures MatVec(m, Scale(c, u)) == Scale(c, MatVec(m, u))
  {
    forall i | 0 <= i < |m| ensures MatVec(m, Scale(c, u))[i] == Scale(c, MatVec(m, u))[i] {
      DotScaleRight(m[i], c, u);
    }
  }

  lemma {:induction false} MatVecZero(m: Matrix, n: nat)
    requires forall i :: 0 <= i < |m| ==> |m[i]| == n
    ensures MatVec(m, Zero(n)) == Zero(|m|)
  {
    forall i | 0 <= i < |m| ensures MatVec(m, Zero(n))[i] == 0.0 {
      DotZeroRight(m[i]);
    }
  }

  lemma {:induction false} FlattenLength(ws: seq<Vector>, d: nat)
    requires forall j :: 0 <= j < |ws| ==> |ws[j]| == d
    ensures |Flatten(ws)| == d * |ws|
    decreases |ws|
  {
    if |ws| > 0 {
      FlattenLength(ws[..|ws| - 1], d);
    }
  }

  /** Block `j` of a stack of `d`-vectors occupies entries `d j .. d j + d - 1`. */
  lemma {:induction false} FlattenIndex(ws: seq<Vector>, d: nat, j: nat, c: nat)
    requires forall t :: 0 <= t < |ws| ==> |ws[t]| == d
    requires j < |ws| && c < d
    ensures |Flatten(ws)| == d * |ws| && d * j + c < d * |ws|
    ensures Flatten(ws)[d * j + c] == ws[j][c]
    decreases |ws|
  {
    var n := |ws| - 1;
    FlattenLength(ws, d);
    FlattenLength(ws[..n], d);
    if j < n {
      FlattenIndex(ws[..n], d, j, c);
    }
  }

  lemma {:induction false} FlattenSub(xs: seq<Vector>, ys: seq<Vector>, d: nat)
    requires |xs| == |ys|
    requires forall j :: 0 <= j < |xs| ==> |xs[j]| == d && |ys[j]| == d
    ensures |Flatten(xs)| == |Flatten(ys)| == d * |xs|
    ensures Sub(Flatten(xs), Flatten(ys))
         == Flatten(seq(|xs|, j requires 0 <= j < |xs| => Sub(xs[j], ys[j])))
    decreases |xs|
  {
    FlattenLength(xs, d);
    FlattenLength(ys, d);
    var zs := seq(|xs|, j requires 0 <= j < |xs| => Sub(xs[j], ys[j]));
    if |xs| > 0 {
      var n := |xs| - 1;
      FlattenSub(xs[..n], ys[..n], d);
      assert zs[..n] == seq(n, j requires 0 <= j < n => Sub(xs[..n][j], ys[..n][j]));
      FlattenLength(xs[..n], d);
      FlattenLength(ys[..n], d);
      assert Flatten(xs) == Flatten(xs[..n]) + xs[n];
      assert Flatten(ys) == Flatten(ys[..n]) + ys[n];
      SubAppend(Flatten(xs[..n]), xs[n], Flatten(ys[..n]), ys[n]);
    }
  }

  /** Element-wise difference distributes over concatenation. */
  lemma {:induction false} SubAppend(a: Vector, b: Vector, c: Vector, d: Vector)
    requires |a| == |c| && |b| == |d|
    ensures Sub(a + b, c + d) == Sub(a, c) + Sub(b, d)
  {
    forall k | 0 <= k < |a| + |b| ensures Sub(a + b, c + d)[k] == (Sub(a, c) + Sub(b, d))[k] {
      if k >= |a| {
        assert (a + b)[k] == b[k - |a|] && (c + d)[k] == d[k - |a|];
      }
    }
  }

  lemma {:induction false} TileIsFlatten(v: Vector, n: nat)
    ensures Tile(v, n) == Flatten(seq(n, j => v))
    decreases n
  {
    if n > 0 {
      assert seq(n, j => v)[..n - 1] == seq(n - 1, j => v);
      TileIsFlatten(v, n - 1);
    }
  }

  /** Row `i |B| + k` of the Kronecker product is `KronRow(A[i], B[k])`. */
  lemma {:induction false} KronIndex(A: Matrix, B: Matrix, q: nat, s: nat, i: nat, k: nat)
    requires IsMatrix(A, |A|, q) && IsMatrix(B, |B|, s)
    requires i < |A| && k < |B|
    ensures i * |B| + k < |A| * |B|
    ensures Kron(A, B, q, s)[i * |B| + k] == KronRow(A[i], B[k])
    decreases |A|
  {
    var n := |A| - 1;
    var b := |B|;
    var head := Kron(A[..n], B, q, s);
    var tail := seq(b, k requires 0 <= k < b => KronRow(A[n], B[k]));
    assert Kron(A, B, q, s) == head + tail;
    assert |head| == n * b;
    BlockIndexBound(i, k, n + 1, b);
    if i < n {
      BlockIndexBound(i, k, n, b);
      KronIndex(A[..n], B, q, s, i, k);
      assert (head + tail)[i * b + k] == head[i * b + k];
    } else {
      assert i * b + k == |head| + k;
      assert (head + tail)[|head| + k] == tail[k];
    }
  }

  /** Entry `k` of block `i` lies inside `n` blocks of `b` entries. */
  lemma {:induction false} BlockIndexBound(i: nat, k: nat, n: nat, b: nat)
    requires i < n && k < b
    ensures i * b + k < n * b
  {
    assert i * b <= (n - 1) * b;
  }

  lemma {:induction false} KronRowDotStep(a: Vector, b: Vector, ws: seq<Vector>, n: nat)
    requires |a| == |ws| == n + 1 && forall j :: 0 <= j < |ws| ==> |ws[j]| == |b|
    ensures |Flatten(ws)| == |a| * |b| && |Flatten(ws[..n])| == n * |b|
    ensures Dot(KronRow(a, b), Flatten(ws))
         == Dot(KronRow(a[..n], b), Flatten(ws[..n])) + Dot(Scale(a[n], b), ws[n])
  {
    FlattenLength(ws, |b|);
    FlattenLength(ws[..n], |b|);
    var kr, fl := KronRow(a[..n], b), Flatten(ws[..n]);
    assert KronRow(a, b) == kr + Scale(a[n], b);
    assert Flatten(ws) == fl + ws[n];
    DotAppend(kr, Scale(a[n], b), fl, ws[n]);
  }

  /** A scalar factor can move from one side of a dot product to the other. */
  lemma {:induction false} DotScaleSwap(c: real, b: Vector, w: Vector)
    requires |b| == |w|
    ensures Dot(Scale(c, b), w) == Dot(b, Scale(c, w))
  {
    DotScaleLeft(c, b, w);
    DotScaleRight(b, c, w);
  }

  lemma {:induction false} WeightedSumDotStep(a: Vector, b: Vector, ws: seq<Vector>, n: nat)
    requires |a| == |ws| == n + 1 && forall j :: 0 <= j < |ws| ==> |ws[j]| == |b|
    ensures Dot(b, WeightedSum(a, ws, |b|))
         == Dot(b, WeightedSum(a[..n], ws[..n], |b|)) + Dot(b, Scale(a[n], ws[n]))
  {
    WeightedSumLast(a, ws, |b|, n);
    DotAddRight(b, WeightedSum(a[..n], ws[..n], |b|), Scale(a[n], ws[n]));
  }

  /** The last weighted block is added after the others. */
  lemma {:induction false} WeightedSumLast(a: Vector, ws: seq<Vector>, dim: nat, n: nat)
    requires |a| == |ws| == n + 1 && forall j :: 0 <= j < |ws| ==> |ws[j]| == dim
    ensures WeightedSum(a, ws, dim) == Add(WeightedSum(a[..n], ws[..n], dim), Scale(a[n], ws[n]))
  {
  }

  /** A Kronecker row applied to a stack is the right factor applied to the
      weighted sum of the blocks. */
  lemma {:induction false} KronRowDot(a: Vector, b: Vector, ws: seq<Vector>)
    requires |a| == |ws| && forall j :: 0 <= j < |ws| ==> |ws[j]| == |b|
    ensures |Flatten(ws)| == |a| * |b|
    ensures Dot(KronRow(a, b), Flatten(ws)) == Dot(b, WeightedSum(a, ws, |b|))
    decreases |a|
  {
    FlattenLength(ws, |b|);
    if |a| > 0 {
      var n := |a| - 1;
      KronRowDotStep(a, b, ws, n);
      WeightedSumDotStep(a, b, ws, n);
      DotScaleSwap(a[n], b, ws[n]);
      KronRowDot(a[..n], b, ws[..n]);
    } else {
      DotZeroRight(b);
    }
  }

  /** Applying a matrix commutes with taking a weighted sum. */
  lemma {:induction false} MatVecWeightedSum(m: Matrix, a: Vector, ws: seq<Vector>, dim: nat)
    requires |a| == |ws| && forall j :: 0 <= j < |ws| ==> |ws[j]| == dim
    requires forall i :: 0 <= i < |m| ==> |m[i]| == dim
    ensures MatVec(m, WeightedSum(a, ws, dim))
         == WeightedSum(a, seq(|ws|, j requires 0 <= j < |ws| => MatVec(m, ws[j])), |m|)
    decreases |a|
  {
    var mws := seq(|ws|, j requires 0 <= j < |ws| => MatVec(m, ws[j]));
    if |a| == 0 {
      MatVecZero(m, dim);
    } else {
      var n := |a| - 1;
      assert mws[..n] == seq(n, j requires 0 <= j < n => MatVec(m, ws[..n][j]));
      MatVecWeightedSum(m, a[..n], ws[..n], dim);
      MatVecAdd(m, WeightedSum(a[..n], ws[..n], dim), Scale(a[n], ws[n]));
      MatVecScale(m, a[n], ws[n]);
    }
  }

  lemma {:induction false} WeightedSumZeroWeights(a: Vector, ws: seq<Vector>, dim: nat)
    requires |a| == |ws| && forall j :: 0 <= j < |ws| ==> |ws[j]| == dim
    requires forall j :: 0 <= j < |a| ==> a[j] == 0.0
    ensures WeightedSum(a, ws, dim) == Zero(dim)
    decreases |a|
  {
    if |a| > 0 {
      WeightedSumZeroWeights(a[..|a| - 1], ws[..|ws| - 1], dim);
    }
  }

  lemma {:induction false} WeightedSumZeroVectors(a: Vector, ws: seq<Vector>, dim: nat)
    requires |a| == |ws| && forall j :: 0 <= j < |ws| ==> |ws[j]| == dim && ws[j] == Zero(dim)
    ensures WeightedSum(a, ws, dim) == Zero(dim)
    decreases |a|
  {
    if |a| > 0 {
      WeightedSumZeroVectors(a[..|a| - 1], ws[..|ws| - 1], dim);
    }
  }

  /** Weights that vanish except at `i` pick out `a[i] · ws[i]`. */
  lemma {:induction false} WeightedSumSingle(a: Vector, ws: seq<Vector>, dim: nat, i: nat)
    requires |a| == |ws| && forall j :: 0 <= j < |ws| ==> |ws[j]| == dim
    requires i < |a| && forall j :: 0 <= j < |a| && j != i ==> a[j] == 0.0
    ensures WeightedSum(a, ws, dim) == Scale(a[i], ws[i])
    decreases |a|
  {
    var n := |a| - 1;
    if i == n {
      WeightedSumZeroWeights(a[..n], ws[..n], dim);
    } else {
      WeightedSumSingle(a[..n], ws[..n], dim, i);
    }
  }

  lemma {:induction false} WeightedSumAddWeights(a: Vector, a': Vector, ws: seq<Vector>, dim: nat)
    requires |a| == |a'| == |ws| && forall j :: 0 <= j < |ws| ==> |ws[j]| == dim
    ensures WeightedSum(Add(a, a'), ws, dim) == Add(WeightedSum(a, ws, dim), WeightedSum(a', ws, dim))
    decreases |a|
  {
    if |a| > 0 {
      var n := |a| - 1;
      assert Add(a, a')[..n] == Add(a[..n], a'[..n]);
      WeightedSumAddWeights(a[..n], a'[..n], ws[..n], dim);
      var x, y := WeightedSum(a[..n], ws[..n], dim), WeightedSum(a'[..n], ws[..n], dim);
      WeightedSumLast(Add(a, a'), ws, dim, n);
      WeightedSumLast(a, ws, dim, n);
      WeightedSumLast(a', ws, dim, n);
      RegroupSums(x, y, a[n], a'[n], ws[n]);
    }
  }

  /** `(x + y) + (c + c′) w == (x + c w) + (y + c′ w)`. */
  lemma {:induction false} RegroupSums(x: Vector, y: Vector, c: real, c': real, w: Vector)
    requires |x| == |y| == |w|
    ensures Add(Add(x, y), Scale(c + c', w)) == Add(Add(x, Scale(c, w)), Add(y, Scale(c', w)))
  {
    forall k | 0 <= k < |x|
      ensures Add(Add(x, y), Scale(c + c', w))[k] == Add(Add(x, Scale(c, w)), Add(y, Scale(c', w)))[k]
    {
    }
  }

  lemma {:induction false} WeightedSumSubWeights(a: Vector, a': Vector, ws: seq<Vector>, dim: nat)
    requires |a| == |a'| == |ws| && forall j :: 0 <= j < |ws| ==> |ws[j]| == dim
    ensures WeightedSum(Sub(a, a'), ws, dim) == Sub(WeightedSum(a, ws, dim), WeightedSum(a', ws, dim))
    decreases |a|
  {
    if |a| > 0 {
      var n := |a| - 1;
      assert Sub(a, a')[..n] == Sub(a[..n], a'[..n]);
      WeightedSumSubWeights(a[..n], a'[..n], ws[..n], dim);
      var x, y := WeightedSum(a[..n], ws[..n], dim), WeightedSum(a'[..n], ws[..n], dim);
      WeightedSumLast(Sub(a, a'), ws, dim, n);
      WeightedSumLast(a, ws, dim, n);
      WeightedSumLast(a', ws, dim, n);
      RegroupDifferences(x, y, a[n], a'[n], ws[n]);
    }
  }

  lemma {:induction false} RegroupDifferences(x: Vector, y: Vector, c: real, c': real, w: Vector)
    requires |x| == |y| == |w|
    ensures Add(Sub(x, y), Scale(c - c', w)) == Sub(Add(x, Scale(c, w)), Add(y, Scale(c', w)))
  {
    forall k | 0 <= k < |x|
      ensures Add(Sub(x, y), Scale(c - c', w))[k] == Sub(Add(x, Scale(c, w)), Add(y, Scale(c', w)))[k]
    {
    }
  }

  lemma {:induction false} DifferenceStep(s: real, c: real, e: Vector, x: Vector, w: Vector)
    requires |e| == |x| == |w|
    ensures Add(Sub(Scale(s, e), x), Scale(c, Sub(e, w))) == Sub(Scale(s + c, e), Add(x, Scale(c, w)))
  {
    forall i | 0 <= i < |e|
      ensures Add(Sub(Scale(s, e), x), Scale(c, Sub(e, w)))[i] == Sub(Scale(s + c, e), Add(x, Scale(c, w)))[i]
    {
      ScalarDifferenceStep(s, c, e[i], x[i], w[i]);
    }
  }

  /** The arithmetic of one entry of `DifferenceStep`. */
  lemma {:induction false} ScalarDifferenceStep(s: real, c: real, e: real, x: real, w: real)
    ensures (s * e - x) + c * (e - w) == (s + c) * e - (x + c * w)
  {
  }

  /** `Σ_j a_j (e − w_j) == (Σ_j a_j) e − Σ_j a_j w_j`. */
  lemma {:induction false} WeightedSumDifferences(a: Vector, e: Vector, ws: seq<Vector>)
    requires |a| == |ws| && forall j :: 0 <= j < |ws| ==> |ws[j]| == |e|
    ensures WeightedSum(a, seq(|ws|, j requires 0 <= j < |ws| => Sub(e, ws[j])), |e|)
         == Sub(Scale(Sum(a), e), WeightedSum(a, ws, |e|))
    decreases |a|
  {
    var ds := seq(|ws|, j requires 0 <= j < |ws| => Sub(e, ws[j]));
    if |a| == 0 {
      assert Sum(a) == 0.0;
      assert Sub(Scale(0.0, e), Zero(|e|)) == Zero(|e|);
    } else {
      var n := |a| - 1;
      assert ds[..n] == seq(n, j requires 0 <= j < n => Sub(e, ws[..n][j]));
      WeightedSumDifferences(a[..n], e, ws[..n]);
      var x := WeightedSum(a[..n], ws[..n], |e|);
      assert WeightedSum(a, ds, |e|) == Add(Sub(Scale(Sum(a[..n]), e), x), Scale(a[n], Sub(e, ws[n])));
      assert WeightedSum(a, ws, |e|) == Add(x, Scale(a[n], ws[n]));
      DifferenceStep(Sum(a[..n]), a[n], e, x, ws[n]);
    }
  }

  // ------------------------------------------------------------ slot sums

  lemma {:induction false} SlotSumAppend(a: Vector, ws: seq<Vector>, slots: seq<nat>, s: nat, dim: nat)
    requires forall j :: 0 <= j < |ws| ==> |ws[j]| == dim
    requires forall t :: 0 <= t < |slots| ==> slots[t] < |a| && slots[t] < |ws|
    requires s < |a| && s < |ws|
    ensures SlotSum(a, ws, slots + [s], dim) == Add(SlotSum(a, ws, slots, dim), Scale(a[s], ws[s]))
  {
    assert (slots + [s])[..|slots|] == slots;
  }

  /** Negating every summand negates the sum. */
  lemma {:induction false} SlotSumNeg(a: Vector, vs: seq<Vector>, ws: seq<Vector>, slots: seq<nat>, dim: nat)
    requires |vs| == |ws| && forall j :: 0 <= j < |ws| ==> |vs[j]| == dim && |ws[j]| == dim && ws[j] == Neg(vs[j])
    requires forall t :: 0 <= t < |slots| ==> slots[t] < |a| && slots[t] < |ws|
    ensures SlotSum(a, ws, slots, dim) == Neg(SlotSum(a, vs, slots, dim))
    decreases |slots|
  {
    if |slots| == 0 {
      assert Neg(Zero(dim)) == Zero(dim);
    } else {
      var n := |slots| - 1;
      var s := slots[n];
      SlotSumNeg(a, vs, ws, slots[..n], dim);
      var x := SlotSum(a, vs, slots[..n], dim);
      forall c | 0 <= c < dim
        ensures Add(Neg(x), Scale(a[s], Neg(vs[s])))[c] == Neg(Add(x, Scale(a[s], vs[s])))[c]
      {
      }
    }
  }

  /** A sum of zero vectors is zero. */
  lemma {:induction false} SlotSumZeroVectors(a: Vector, ws: seq<Vector>, slots: seq<nat>, dim: nat)
    requires forall j :: 0 <= j < |ws| ==> |ws[j]| == dim && ws[j] == Zero(dim)
    requires forall t :: 0 <= t < |slots| ==> slots[t] < |a| && slots[t] < |ws|
    ensures SlotSum(a, ws, slots, dim) == Zero(dim)
    decreases |slots|
  {
    if |slots| > 0 {
      var n := |slots| - 1;
      SlotSumZeroVectors(a, ws, slots[..n], dim);
      assert Add(Zero(dim), Scale(a[slots[n]], Zero(dim))) == Zero(dim);
    }
  }

  /** Only the entries the slots point at matter: `a'` and `ws'` agree with `a`
      and `ws` below `m`, and every slot is below `m`. */
  lemma {:induction false} SlotSumRestrict(a: Vector, ws: seq<Vector>, a': Vector, ws': seq<Vector>, slots: seq<nat>, m: nat, dim: nat)
    requires forall j :: 0 <= j < |ws| ==> |ws[j]| == dim
    requires forall j :: 0 <= j < |ws'| ==> |ws'[j]| == dim
    requires m <= |a| && m <= |ws| && m <= |a'| && m <= |ws'|
    requires forall j :: 0 <= j < m ==> a'[j] == a[j] && ws'[j] == ws[j]
    requires forall t :: 0 <= t < |slots| ==> slots[t] < m
    ensures SlotSum(a, ws, slots, dim) == SlotSum(a', ws', slots, dim)
    decreases |slots|
  {
    if |slots| > 0 {
      SlotSumRestrict(a, ws, a', ws', slots[..|slots| - 1], m, dim);
    }
  }
}
