/** Real vectors and matrices, enough to state what the LoRA adapters and the
    LoRA merge do with their weights. A matrix is a sequence of rows; a weight
    of shape `out x in` is applied to a vector of width `in` as `nn.Linear`
    does (`W x`, that is `x @ W.T`). */
module Matrices {

  type Vector = seq<real>
  type Matrix = seq<seq<real>>

  ghost predicate IsMatrix(m: Matrix, rows: nat, cols: nat)
  {
    |m| == rows && forall i :: 0 <= i < rows ==> |m[i]| == cols
  }

  function ZeroVector(n: nat): (v: Vector)
    ensures |v| == n
    ensures forall i :: 0 <= i < n ==> v[i] == 0.0
  {
    seq(n, _ => 0.0)
  }

  function Zeros(rows: nat, cols: nat): (m: Matrix)
    ensures IsMatrix(m, rows, cols)
    ensures forall i, j :: 0 <= i < rows && 0 <= j < cols ==> m[i][j] == 0.0
  {
    seq(rows, _ => ZeroVector(cols))
  }

  /** The matrix whose entry (i, j) is `draw(i, j)`: a tensor filled in place by
      an initialiser, with the drawn values as a parameter. */
  function Build(rows: nat, cols: nat, draw: (nat, nat) -> real): (m: Matrix)
    ensures IsMatrix(m, rows, cols)
    ensures forall i, j :: 0 <= i < rows && 0 <= j < cols ==> m[i][j] == draw(i, j)
  {
    seq(rows, i requires 0 <= i => seq(cols, j requires 0 <= j => draw(i, j)))
  }

  function Dot(u: Vector, v: Vector): real
    requires |u| == |v|
  {
    if |u| == 0 then 0.0 else u[0] * v[0] + Dot(u[1..], v[1..])
  }

  function AddV(u: Vector, v: Vector): (w: Vector)
    requires |u| == |v|
    ensures |w| == |u|
    ensures forall i :: 0 <= i < |u| ==> w[i] == u[i] + v[i]
  {
    seq(|u|, i requires 0 <= i < |u| => u[i] + v[i])
  }

  function ScaleV(c: real, u: Vector): (w: Vector)
    ensures |w| == |u|
    ensures forall i :: 0 <= i < |u| ==> w[i] == c * u[i]
  {
    seq(|u|, i requires 0 <= i < |u| => c * u[i])
  }

  /** Column `j` of `m`. */
  function Col(m: Matrix, j: nat): (c: Vector)
    requires forall i :: 0 <= i < |m| ==> j < |m[i]|
    ensures |c| == |m|
    ensures forall i :: 0 <= i < |m| ==> c[i] == m[i][j]
  {
    seq(|m|, i requires 0 <= i < |m| => m[i][j])
  }

  /** `W x` for a weight `W` of shape `|W| x |x|`. */
  function Apply(w: Matrix, x: Vector): (y: Vector)
    requires forall i :: 0 <= i < |w| ==> |w[i]| == |x|
    ensures |y| == |w|
    ensures forall i :: 0 <= i < |w| ==> y[i] == Dot(w[i], x)
  {
    seq(|w|, i requires 0 <= i < |w| => Dot(w[i], x))
  }

  /** `x @ m` for a matrix of shape `|x| x cols`. */
  function VecMat(x: Vector, m: Matrix, cols: nat): (y: Vector)
    requires IsMatrix(m, |x|, cols)
    ensures |y| == cols
  {
    seq(cols, j requires 0 <= j < cols => Dot(x, Col(m, j)))
  }

  function Add(a: Matrix, b: Matrix, rows: nat, cols: nat): (m: Matrix)
    requires IsMatrix(a, rows, cols) && IsMatrix(b, rows, cols)
    ensures IsMatrix(m, rows, cols)
    ensures forall i :: 0 <= i < rows ==> m[i] == AddV(a[i], b[i])
  {
    seq(rows, i requires 0 <= i < rows => AddV(a[i], b[i]))
  }

  function Scale(c: real, a: Matrix): (m: Matrix)
    ensures |m| == |a|
    ensures forall i :: 0 <= i < |a| ==> m[i] == ScaleV(c, a[i])
  {
    seq(|a|, i requires 0 <= i < |a| => ScaleV(c, a[i]))
  }

  /** The product `b @ a` of a `rows x inner` and an `inner x cols` matrix. */
  function MatMul(b: Matrix, a: Matrix, rows: nat, inner: nat, cols: nat): (m: Matrix)
    requires IsMatrix(b, rows, inner) && IsMatrix(a, inner, cols)
    ensures IsMatrix(m, rows, cols)
    ensures forall i, j :: 0 <= i < rows && 0 <= j < cols ==> m[i][j] == Dot(b[i], Col(a, j))
  {
    seq(rows, i requires 0 <= i < rows => seq(cols, j requires 0 <= j < cols => Dot(b[i], Col(a, j))))
  }

  lemma {:induction false} DotZeroRight(u: Vector, v: Vector)
    requires |u| == |v|
    requires forall i :: 0 <= i < |v| ==> v[i] == 0.0
    ensures Dot(u, v) == 0.0
    decreases |u|
  {
    if |u| > 0 {
      DotZeroRight(u[1..], v[1..]);
    }
  }

  lemma {:induction false} DotZeroLeft(u: Vector, v: Vector)
    requires |u| == |v|
    requires forall i :: 0 <= i < |u| ==> u[i] == 0.0
    ensures Dot(u, v) == 0.0
    decreases |u|
  {
    if |u| > 0 {
      DotZeroLeft(u[1..], v[1..]);
    }
  }

  lemma {:induction false} DotAddLeft(u: Vector, v: Vector, x: Vector)
    requires |u| == |v| == |x|
    ensures Dot(AddV(u, v), x) == Dot(u, x) + Dot(v, x)
    decreases |u|
  {
    if |u| > 0 {
      DotAddLeft(u[1..], v[1..], x[1..]);
      assert AddV(u, v)[1..] == AddV(u[1..], v[1..]);
    }
  }

  lemma {:induction false} DotScaleLeft(c: real, u: Vector, x: Vector)
    requires |u| == |x|
    ensures Dot(ScaleV(c, u), x) == c * Dot(u, x)
    decreases |u|
  {
    if |u| > 0 {
      DotScaleLeft(c, u[1..], x[1..]);
      ScaleTail(c, u);
    }
  }

  lemma ScaleTail(c: real, u: Vector)
    requires |u| > 0
    ensures ScaleV(c, u)[0] == c * u[0] && ScaleV(c, u)[1..] == ScaleV(c, u[1..])
  {
    forall i | 0 <= i < |u| - 1 ensures ScaleV(c, u)[1..][i] == ScaleV(c, u[1..])[i] {
      assert ScaleV(c, u)[1..][i] == ScaleV(c, u)[i + 1];
    }
  }

  /** `x @ 0` is the zero vector. */
  lemma VecMatZero(x: Vector, rows: nat, cols: nat)
    requires |x| == rows
    ensures VecMat(x, Zeros(rows, cols), cols) == ZeroVector(cols)
  {
    forall j | 0 <= j < cols
      ensures VecMat(x, Zeros(rows, cols), cols)[j] == 0.0
    {
      DotZeroRight(x, Col(Zeros(rows, cols), j));
    }
  }

  /** `0 x` is the zero vector. */
  lemma ApplyZero(rows: nat, x: Vector)
    ensures Apply(Zeros(rows, |x|), x) == ZeroVector(rows)
  {
    forall i | 0 <= i < rows
      ensures Apply(Zeros(rows, |x|), x)[i] == 0.0
    {
      DotZeroLeft(Zeros(rows, |x|)[i], x);
    }
  }

  /** One row of a product applied to a vector: `(b @ a) x`, row by row, is
      `b (a x)`. Induction on the inner dimension. */
  lemma {:induction false} DotRowOfProduct(b: Vector, a: Matrix, cols: nat, x: Vector)
    requires IsMatrix(a, |b|, cols) && |x| == cols
    ensures Dot(VecMat(b, a, cols), x) == Dot(b, Apply(a, x))
    decreases |b|
  {
    var row := VecMat(b, a, cols);
    if |b| == 0 {
      forall j | 0 <= j < cols ensures row[j] == 0.0 { }
      DotZeroLeft(row, x);
    } else {
      var rest := VecMat(b[1..], a[1..], cols);
      VecMatStep(b, a, cols);
      DotAddLeft(ScaleV(b[0], a[0]), rest, x);
      DotScaleLeft(b[0], a[0], x);
      DotRowOfProduct(b[1..], a[1..], cols, x);
      ApplyStep(a, x);
    }
  }

  /** `b @ a` is `b[0] a[0]` plus the product of the remaining rows. */
  lemma VecMatStep(b: Vector, a: Matrix, cols: nat)
    requires IsMatrix(a, |b|, cols) && |b| > 0
    ensures VecMat(b, a, cols) == AddV(ScaleV(b[0], a[0]), VecMat(b[1..], a[1..], cols))
  {
    var a' := a[1..];
    forall j | 0 <= j < cols
      ensures VecMat(b, a, cols)[j] == AddV(ScaleV(b[0], a[0]), VecMat(b[1..], a', cols))[j]
    {
      assert Col(a, j)[1..] == Col(a', j);
    }
  }

  lemma ApplyStep(a: Matrix, x: Vector)
    requires |a| > 0 && forall i :: 0 <= i < |a| ==> |a[i]| == |x|
    ensures Apply(a, x)[0] == Dot(a[0], x) && Apply(a, x)[1..] == Apply(a[1..], x)
  {
    var y, y' := Apply(a, x), Apply(a[1..], x);
    forall i | 0 <= i < |y'|
      ensures y[1..][i] == y'[i]
    {
      assert y[1..][i] == y[i + 1] && a[1..][i] == a[i + 1];
    }
  }

  /** Applying a product is applying its factors in turn. */
  lemma ApplyMatMul(b: Matrix, a: Matrix, rows: nat, inner: nat, cols: nat, x: Vector)
    requires IsMatrix(b, rows, inner) && IsMatrix(a, inner, cols) && |x| == cols
    ensures Apply(MatMul(b, a, rows, inner, cols), x) == Apply(b, Apply(a, x))
  {
    var m := MatMul(b, a, rows, inner, cols);
    forall i | 0 <= i < rows
      ensures Apply(m, x)[i] == Apply(b, Apply(a, x))[i]
    {
      assert m[i] == VecMat(b[i], a, cols);
      DotRowOfProduct(b[i], a, cols, x);
    }
  }

  /** Applying a sum of weights adds the outputs. */
  lemma ApplyAdd(a: Matrix, b: Matrix, rows: nat, x: Vector)
    requires IsMatrix(a, rows, |x|) && IsMatrix(b, rows, |x|)
    ensures Apply(Add(a, b, rows, |x|), x) == AddV(Apply(a, x), Apply(b, x))
  {
    forall i | 0 <= i < rows
      ensures Apply(Add(a, b, rows, |x|), x)[i] == Apply(a, x)[i] + Apply(b, x)[i]
    {
      DotAddLeft(a[i], b[i], x);
    }
  }

  /** Applying a scaled weight scales the output. */
  lemma ApplyScale(c: real, a: Matrix, x: Vector)
    requires forall i :: 0 <= i < |a| ==> |a[i]| == |x|
    ensures Apply(Scale(c, a), x) == ScaleV(c, Apply(a, x))
  {
    forall i | 0 <= i < |a|
      ensures Apply(Scale(c, a), x)[i] == c * Apply(a, x)[i]
    {
      DotScaleLeft(c, a[i], x);
    }
  }
}
