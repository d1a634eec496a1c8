/**
 * Dense real vectors and matrices, as far as the gait model uses numpy:
 * the dot product behind `numpy.matmul`, reshape, transpose and the rows
 * of a scaled identity matrix.
 */
module Linear {

  type Vector = seq<real>
  type Matrix = seq<seq<real>>

  /** Sum of the elementwise products of two vectors of the same length. */
  function Dot(a: Vector, b: Vector): (d: real)
    requires |a| == |b|
  {
    if |a| == 0 then 0.0 else a[0] * b[0] + Dot(a[1..], b[1..])
  }

  /** Every row of `m` has `width` entries. */
  predicate Rectangular(m: Matrix, width: nat) {
    forall i :: 0 <= i < |m| ==> |m[i]| == width
  }

  /** `numpy.matmul(m, v)` for a matrix and a vector: one dot product per row. */
  function MatVec(m: Matrix, v: Vector): (r: Vector)
    requires Rectangular(m, |v|)
  {
    seq(|m|, i requires 0 <= i < |m| => Dot(m[i], v))
  }

  lemma RowBound(r: nat, rows: nat, cols: nat)
    requires r < rows
    ensures (r + 1) * cols <= rows * cols
  {
    var k := rows - (r + 1);
    assert rows * cols == (r + 1) * cols + k * cols;
  }

  /** `flat.reshape(rows, cols)`: consecutive runs of `cols` entries become rows. */
  function Reshape(flat: Vector, rows: nat, cols: nat): (grid: Matrix)
    requires |flat| == rows * cols
  {
    seq(rows, r requires 0 <= r < rows =>
      RowBound(r, rows, cols); flat[r * cols .. (r + 1) * cols])
  }

  /** `numpy.transpose` of a matrix whose rows all have `cols` entries. */
  function Transpose(m: Matrix, cols: nat): (t: Matrix)
    requires Rectangular(m, cols)
  {
    seq(cols, j requires 0 <= j < cols => seq(|m|, i requires 0 <= i < |m| => m[i][j]))
  }

  /** Row `i` of `c * numpy.identity(n)`. */
  function ScaledUnitRow(n: nat, i: nat, c: real): (row: Vector) {
    seq(n, k requires 0 <= k < n => if k == i then c else 0.0)
  }

  /** The dot product distributes over concatenation. */
  lemma {:induction false} DotAppend(a1: Vector, a2: Vector, b1: Vector, b2: Vector)
    requires |a1| == |b1| && |a2| == |b2|
    ensures Dot(a1 + a2, b1 + b2) == Dot(a1, b1) + Dot(a2, b2)
  {
    if |a1| > 0 {
      assert (a1 + a2)[1..] == a1[1..] + a2;
      assert (b1 + b2)[1..] == b1[1..] + b2;
      DotAppend(a1[1..], a2, b1[1..], b2);
    } else {
      assert a1 + a2 == a2;
      assert b1 + b2 == b2;
    }
  }

  /** A vector that is zero everywhere contributes nothing to a dot product. */
  lemma {:induction false} DotZero(a: Vector, b: Vector)
    requires |a| == |b|
    requires forall k :: 0 <= k < |a| ==> a[k] == 0.0
    ensures Dot(a, b) == 0.0
  {
    if |a| > 0 {
      DotZero(a[1..], b[1..]);
    }
  }

  /** A vector that is zero except at `i` picks out `a[i] * b[i]`. */
  lemma {:induction false} DotSingle(a: Vector, b: Vector, i: nat)
    requires |a| == |b| && i < |a|
    requires forall k :: 0 <= k < |a| && k != i ==> a[k] == 0.0
    ensures Dot(a, b) == a[i] * b[i]
  {
    if i == 0 {
      DotZero(a[1..], b[1..]);
    } else {
      DotSingle(a[1..], b[1..], i - 1);
    }
  }

  /** Multiplying a vector by the row `i` of a scaled identity selects entry `i`. */
  lemma UnitRowSelects(n: nat, i: nat, c: real, b: Vector)
    requires i < n && |b| == n
    ensures Dot(ScaledUnitRow(n, i, c), b) == c * b[i]
  {
    DotSingle(ScaledUnitRow(n, i, c), b, i);
  }

  /** The dot product of two vectors of six entries, written out. */
  lemma DotSix(a: Vector, b: Vector)
    requires |a| == 6 && |b| == 6
    ensures Dot(a, b) == a[0] * b[0] + a[1] * b[1] + a[2] * b[2] + a[3] * b[3] + a[4] * b[4] + a[5] * b[5]
  {
    assert a[5..][1..] == [] && b[5..][1..] == [];
    assert Dot(a[5..], b[5..]) == a[5] * b[5];
    assert a[4..][1..] == a[5..] && b[4..][1..] == b[5..];
    assert Dot(a[4..], b[4..]) == a[4] * b[4] + Dot(a[5..], b[5..]);
    assert a[3..][1..] == a[4..] && b[3..][1..] == b[4..];
    assert Dot(a[3..], b[3..]) == a[3] * b[3] + Dot(a[4..], b[4..]);
    assert a[2..][1..] == a[3..] && b[2..][1..] == b[3..];
    assert Dot(a[2..], b[2..]) == a[2] * b[2] + Dot(a[3..], b[3..]);
    assert a[1..][1..] == a[2..] && b[1..][1..] == b[2..];
    assert Dot(a[1..], b[1..]) == a[1] * b[1] + Dot(a[2..], b[2..]);
  }
}
