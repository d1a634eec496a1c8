/**
 * The statistical gait model: the layout of its coefficient tables, the
 * blend of the trait axes, the harmonic sum of the two pose paths, the
 * repacking of the 46 slots of a pose into 15 labelled points, and the
 * stride frequency.  Everything here is a pure function of its arguments;
 * the state that holds the tables lives in ModelStore and Walker.
 *
 * The trigonometric values are arguments: `sin` and `cos` are left
 * uninterpreted, and only what follows from their being functions of the
 * angle is used.
 */
module Gait {
  import opened Linear

  /** The number of body landmarks a pose has. */
  const NumMarkers: nat := 15
  /** The slots of one coefficient block: z, x and y of every landmark, then the frequency. */
  const BlockSize: nat := 3 * NumMarkers + 1
  /** Five blocks: static pose, then the sin θ, cos θ, sin 2θ and cos 2θ coefficients. */
  const TableLength: nat := 5 * BlockSize
  /** The slot of a block that holds the stride frequency instead of a coordinate. */
  const FrequencySlot: nat := 3 * NumMarkers
  /** The value of `math.pi`, as written in decimal. */
  const Pi: real := 3.141592653589793

  /** The six coefficient tables: the mean walker and the five trait axes. */
  datatype Tables = Tables(mean: Vector, gender: Vector, weight: Vector,
                           nervous: Vector, happy: Vector, custom: Vector)
  {
    /** The length of the shortest table. */
    function MinLength(): (m: nat)
      ensures m <= |mean| && m <= |gender| && m <= |weight| &&
              m <= |nervous| && m <= |happy| && m <= |custom|
      ensures m == |mean| || m == |gender| || m == |weight| ||
              m == |nervous| || m == |happy| || m == |custom|
    {
      Min(Min(Min(|mean|, |gender|), Min(|weight|, |nervous|)), Min(|happy|, |custom|))
    }

    /** Every table holds at least `n` slots. */
    predicate Covers(n: nat) {
      n <= MinLength()
    }

    /** All six tables have the same length. */
    predicate Uniform() {
      |gender| == |mean| && |weight| == |mean| && |nervous| == |mean| &&
      |happy| == |mean| && |custom| == |mean|
    }

    /** Table `k`, in the order the loader stacks them. */
    function Column(k: nat): (col: Vector)
      requires k < 6
    {
      match k
      case 0 => mean
      case 1 => gender
      case 2 => weight
      case 3 => nervous
      case 4 => happy
      case _ => custom
    }

    /** The six tables one after the other, as `numpy.concatenate` lays them out. */
    function Concatenated(): (flat: Vector) {
      mean + gender + weight + nervous + happy + custom
    }
  }

  /** The smaller of two lengths. */
  function Min(a: nat, b: nat): (m: nat) {
    if a <= b then a else b
  }

  /** The trait weights of one walker. */
  datatype Traits = Traits(gender: real, weight: real, nervousness: real,
                           happiness: real, customness: real)
  {
    /** Every weight multiplied by `f`. */
    function Scaled(f: real): (s: Traits) {
      Traits(f * gender, f * weight, f * nervousness, f * happiness, f * customness)
    }
  }

  /** The configuration in which no trait axis contributes. */
  const NoTraits: Traits := Traits(0.0, 0.0, 0.0, 0.0, 0.0)

  /** sin θ, cos θ, sin 2θ and cos 2θ for one angle θ. */
  datatype Harmonics = Harmonics(sin1: real, cos1: real, sin2: real, cos2: real)

  /** One labelled landmark of a pose. */
  datatype Point = Point(part: string, x: real, y: real, z: real)

  /** The angle θ of a query: the phase offsets are added, the initial phase is in degrees. */
  function Angle(walkertime: real, phase: real, initPhase: real): (angle: real) {
    walkertime + phase + initPhase * Pi / 180.0
  }

  /** The four harmonic values at `angle`. */
  function HarmonicsAt(sin: real -> real, cos: real -> real, angle: real): (h: Harmonics) {
    Harmonics(sin(angle), cos(angle), sin(2.0 * angle), cos(2.0 * angle))
  }

  // ---------------------------------------------------------------------
  // The matrix form

  /** The concatenated tables can be reshaped into six rows of `|mean|` entries. */
  predicate Stackable(t: Tables) {
    |t.Concatenated()| == 6 * |t.mean|
  }

  /** Reshape keeps the shape it is asked for. */
  lemma ReshapeShape(flat: Vector, rows: nat, cols: nat)
    requires |flat| == rows * cols
    ensures |Reshape(flat, rows, cols)| == rows && Rectangular(Reshape(flat, rows, cols), cols)
  {
    forall r | 0 <= r < rows
      ensures |Reshape(flat, rows, cols)[r]| == cols
    {
      RowBound(r, rows, cols);
      assert (r + 1) * cols == r * cols + cols;
    }
  }

  /**
   * The matrix A: the concatenated tables reshaped into six rows and
   * transposed, so that it has one row of six entries per slot.
   */
  function StackedMatrix(t: Tables): (a: Matrix)
    requires Stackable(t)
  {
    var cols := |t.mean|;
    ReshapeShape(t.Concatenated(), 6, cols);
    Transpose(Reshape(t.Concatenated(), 6, cols), cols)
  }

  /** The weight vector X = [1, 6g, 6w, 6n, 6h, 6c] of the matrix form. */
  function ScaledWeights(tr: Traits): (x: Vector) {
    [1.0, 6.0 * tr.gender, 6.0 * tr.weight, 6.0 * tr.nervousness,
     6.0 * tr.happiness, 6.0 * tr.customness]
  }

  /** A has one row per slot, each of six entries. */
  lemma StackedShape(t: Tables)
    requires Stackable(t)
    ensures |StackedMatrix(t)| == |t.mean| && Rectangular(StackedMatrix(t), 6)
  {
    ReshapeShape(t.Concatenated(), 6, |t.mean|);
  }

  /** Row k of the reshaped concatenation is table k. */
  lemma ReshapedRowIsTable(t: Tables, k: nat)
    requires t.Uniform() && k < 6
    ensures Stackable(t)
    ensures |t.Concatenated()| == 6 * |t.mean|
    ensures Reshape(t.Concatenated(), 6, |t.mean|)[k] == t.Column(k)
  {
    var n := |t.mean|;
    var flat := t.Concatenated();
    RowBound(k, 6, n);
    var row := Reshape(flat, 6, n)[k];
    assert row == flat[k * n .. (k + 1) * n];
    if k == 0 {
      assert row == t.mean;
    } else if k == 1 {
      assert row == t.gender;
    } else if k == 2 {
      assert row == t.weight;
    } else if k == 3 {
      assert row == t.nervous;
    } else if k == 4 {
      assert row == t.happy;
    } else {
      assert row == t.custom;
    }
  }

  /** Column k of A is table k: row j of A is slot j of the six tables. */
  lemma StackedColumns(t: Tables)
    requires t.Uniform()
    ensures Stackable(t)
    ensures StackedMatrix(t) == seq(|t.mean|, j requires 0 <= j < |t.mean| =>
                                  [t.mean[j], t.gender[j], t.weight[j], t.nervous[j], t.happy[j], t.custom[j]])
  {
    var n := |t.mean|;
    ReshapedRowIsTable(t, 0);
    ReshapeShape(t.Concatenated(), 6, n);
    var r := Reshape(t.Concatenated(), 6, n);
    ReshapedRowIsTable(t, 1);
    ReshapedRowIsTable(t, 2);
    ReshapedRowIsTable(t, 3);
    ReshapedRowIsTable(t, 4);
    ReshapedRowIsTable(t, 5);
    assert r[0] == t.mean && r[1] == t.gender && r[2] == t.weight;
    assert r[3] == t.nervous && r[4] == t.happy && r[5] == t.custom;
    forall j | 0 <= j < n
      ensures StackedMatrix(t)[j] == [t.mean[j], t.gender[j], t.weight[j], t.nervous[j], t.happy[j], t.custom[j]]
    {
      assert StackedMatrix(t)[j] == seq(6, i requires 0 <= i < 6 => r[i][j]);
    }
  }

  /** Slot j of Y = A·X is the blend of slot j with every trait multiplied by six. */
  lemma BasisSlotIsBlend(t: Tables, tr: Traits, j: nat)
    requires t.Uniform() && j < |t.mean|
    ensures Stackable(t) && |StackedMatrix(t)| == |t.mean| && Rectangular(StackedMatrix(t), 6)
    ensures MatVec(StackedMatrix(t), ScaledWeights(tr))[j] == Blend(t, tr.Scaled(6.0), j)
  {
    StackedColumns(t);
    StackedShape(t);
    var a := StackedMatrix(t);
    DotSix(a[j], ScaledWeights(tr));
  }

  /** The blended basis Y = A·X, slot by slot: every axis enters with six times its trait. */
  lemma BlendedBasisAt(t: Tables, tr: Traits, j: nat)
    requires t.Uniform() && j < |t.mean|
    ensures Stackable(t) && |StackedMatrix(t)| == |t.mean| && Rectangular(StackedMatrix(t), 6)
    ensures MatVec(StackedMatrix(t), ScaledWeights(tr))[j] ==
            t.mean[j] + 6.0 * tr.gender * t.gender[j] + 6.0 * tr.weight * t.weight[j] +
            6.0 * tr.nervousness * t.nervous[j] + 6.0 * tr.happiness * t.happy[j] +
            6.0 * tr.customness * t.custom[j]
  {
    BasisSlotIsBlend(t, tr, j);
  }

  /** With every trait zero the blended basis is the mean walker itself. */
  lemma NoTraitsBasisIsMean(t: Tables)
    requires t.Uniform()
    ensures Stackable(t) && Rectangular(StackedMatrix(t), 6)
    ensures MatVec(StackedMatrix(t), ScaledWeights(NoTraits)) == t.mean
  {
    StackedShape(t);
    forall j | 0 <= j < |t.mean|
      ensures MatVec(StackedMatrix(t), ScaledWeights(NoTraits))[j] == t.mean[j]
    {
      BasisSlotIsBlend(t, NoTraits, j);
    }
  }

  /** Row `i` of V: row `i` of the five scaled identities side by side. */
  function HarmonicRow(h: Harmonics, i: nat): (row: Vector) {
    ScaledUnitRow(BlockSize, i, 1.0) + ScaledUnitRow(BlockSize, i, h.sin1) +
    ScaledUnitRow(BlockSize, i, h.cos1) + ScaledUnitRow(BlockSize, i, h.sin2) +
    ScaledUnitRow(BlockSize, i, h.cos2)
  }

  /** V = [I, sin θ·I, cos θ·I, sin 2θ·I, cos 2θ·I], 46 rows of 230 entries. */
  function HarmonicMatrix(h: Harmonics): (v: Matrix) {
    seq(BlockSize, i requires 0 <= i < BlockSize => HarmonicRow(h, i))
  }

  /** The 46 pose slots of the matrix path: V·Y. */
  function MatrixValues(y: Vector, h: Harmonics): (values: Vector)
    requires |y| == TableLength
  {
    assert Rectangular(HarmonicMatrix(h), |y|);
    MatVec(HarmonicMatrix(h), y)
  }

  /** Slot j of V·Y is the static coefficient plus the four harmonic coefficients of slot j. */
  lemma MatrixValuesAt(y: Vector, h: Harmonics, j: nat)
    requires |y| == TableLength && j < BlockSize
    ensures |MatrixValues(y, h)| == BlockSize
    ensures MatrixValues(y, h)[j] ==
            HarmonicSum(y[j], y[j + BlockSize], y[j + 2 * BlockSize], y[j + 3 * BlockSize], y[j + 4 * BlockSize], h)
  {
    var u0 := ScaledUnitRow(BlockSize, j, 1.0);
    var u1 := ScaledUnitRow(BlockSize, j, h.sin1);
    var u2 := ScaledUnitRow(BlockSize, j, h.cos1);
    var u3 := ScaledUnitRow(BlockSize, j, h.sin2);
    var u4 := ScaledUnitRow(BlockSize, j, h.cos2);
    var y0, y1, y2, y3, y4 := y[..46], y[46..92], y[92..138], y[138..184], y[184..];
    assert y == y0 + y1 + y2 + y3 + y4;
    assert MatrixValues(y, h)[j] == Dot(u0 + u1 + u2 + u3 + u4, y0 + y1 + y2 + y3 + y4);
    DotAppend(u0 + u1 + u2 + u3, u4, y0 + y1 + y2 + y3, y4);
    DotAppend(u0 + u1 + u2, u3, y0 + y1 + y2, y3);
    DotAppend(u0 + u1, u2, y0 + y1, y2);
    DotAppend(u0, u1, y0, y1);
    UnitRowSelects(BlockSize, j, 1.0, y0);
    UnitRowSelects(BlockSize, j, h.sin1, y1);
    UnitRowSelects(BlockSize, j, h.cos1, y2);
    UnitRowSelects(BlockSize, j, h.sin2, y3);
    UnitRowSelects(BlockSize, j, h.cos2, y4);
  }

  // ---------------------------------------------------------------------
  // The direct summation

  /** Slot `j` of the tables, each axis weighted by its trait and the mean walker by 1. */
  function Blend(t: Tables, tr: Traits, j: nat): (b: real)
    requires t.Covers(j + 1)
  {
    t.mean[j] + (t.gender[j] * tr.gender + t.weight[j] * tr.weight +
                 t.nervous[j] * tr.nervousness + t.happy[j] * tr.happiness +
                 t.custom[j] * tr.customness)
  }

  /** A static coefficient plus four coefficients weighted by the harmonics. */
  function HarmonicSum(c0: real, c1: real, c2: real, c3: real, c4: real, h: Harmonics): (sum: real) {
    c0 + (c1 * h.sin1 + c2 * h.cos1 + c3 * h.sin2 + c4 * h.cos2)
  }

  /** Slot `i` of a pose by direct summation over the five blocks. */
  function FallbackSlot(t: Tables, tr: Traits, h: Harmonics, i: nat): (slot: real)
    requires i < BlockSize && t.Covers(TableLength)
  {
    HarmonicSum(Blend(t, tr, i), Blend(t, tr, i + BlockSize), Blend(t, tr, i + 2 * BlockSize),
                Blend(t, tr, i + 3 * BlockSize), Blend(t, tr, i + 4 * BlockSize), h)
  }

  /** The 46 pose slots of the direct summation. */
  function FallbackValues(t: Tables, tr: Traits, h: Harmonics): (values: Vector)
    requires t.Covers(TableLength)
  {
    seq(BlockSize, i requires 0 <= i < BlockSize => FallbackSlot(t, tr, h, i))
  }

  /**
   * The matrix path is the direct summation with every trait multiplied by
   * six: on tables of exactly 230 slots, V·(A·X) equals the fallback's sum
   * taken at six times the walker's traits.
   */
  lemma MatrixPathIsSixfoldFallback(t: Tables, tr: Traits, h: Harmonics)
    requires t.Uniform() && |t.mean| == TableLength
    ensures Stackable(t) && Rectangular(StackedMatrix(t), 6)
    ensures |MatVec(StackedMatrix(t), ScaledWeights(tr))| == TableLength
    ensures MatrixValues(MatVec(StackedMatrix(t), ScaledWeights(tr)), h) == FallbackValues(t, tr.Scaled(6.0), h)
  {
    BasisIsSixfoldBlend(t, tr);
    MatrixValuesOfBlend(t, tr.Scaled(6.0), h);
  }

  /** Every slot of the tables blended by the traits. */
  function BlendedTables(t: Tables, tr: Traits): (y: Vector)
    requires t.Uniform()
  {
    seq(|t.mean|, j requires 0 <= j < |t.mean| => Blend(t, tr, j))
  }

  /** Y = A·X is the blend of the tables at six times the traits. */
  lemma BasisIsSixfoldBlend(t: Tables, tr: Traits)
    requires t.Uniform()
    ensures Stackable(t) && Rectangular(StackedMatrix(t), 6)
    ensures MatVec(StackedMatrix(t), ScaledWeights(tr)) == BlendedTables(t, tr.Scaled(6.0))
  {
    StackedShape(t);
    forall j | 0 <= j < |t.mean|
      ensures MatVec(StackedMatrix(t), ScaledWeights(tr))[j] == Blend(t, tr.Scaled(6.0), j)
    {
      BasisSlotIsBlend(t, tr, j);
    }
  }

  /** V applied to blended tables is the fallback's direct summation with the same traits. */
  lemma MatrixValuesOfBlend(t: Tables, tr: Traits, h: Harmonics)
    requires t.Uniform() && |t.mean| == TableLength
    ensures MatrixValues(BlendedTables(t, tr), h) == FallbackValues(t, tr, h)
  {
    forall i | 0 <= i < BlockSize
      ensures MatrixValues(BlendedTables(t, tr), h)[i] == FallbackSlot(t, tr, h, i)
    {
      MatrixValuesAt(BlendedTables(t, tr), h, i);
    }
  }

  /**
   * Scaling the traits by `f` scales a slot's distance from the mean walker
   * by `f`; `z`, `b` and `s` are the slot without traits, with `tr` and with
   * `tr` scaled.
   */
  lemma BlendDeviationScales(t: Tables, tr: Traits, f: real, j: nat) returns (z: real, b: real, s: real)
    requires t.Covers(j + 1)
    ensures z == Blend(t, NoTraits, j) && b == Blend(t, tr, j) && s == Blend(t, tr.Scaled(f), j)
    ensures z == t.mean[j] && s - z == f * (b - z)
  {
    z, b, s := Blend(t, NoTraits, j), Blend(t, tr, j), Blend(t, tr.Scaled(f), j);
  }

  /** Slot `i` of the direct summation moves away from the mean walker's linearly in the traits. */
  lemma SlotDeviationScales(t: Tables, tr: Traits, h: Harmonics, f: real, i: nat)
    requires t.Covers(TableLength) && i < BlockSize
    ensures FallbackSlot(t, tr.Scaled(f), h, i) - FallbackSlot(t, NoTraits, h, i) ==
            f * (FallbackSlot(t, tr, h, i) - FallbackSlot(t, NoTraits, h, i))
  {
    var z0, b0, s0 := BlendDeviationScales(t, tr, f, i);
    var z1, b1, s1 := BlendDeviationScales(t, tr, f, i + BlockSize);
    var z2, b2, s2 := BlendDeviationScales(t, tr, f, i + 2 * BlockSize);
    var z3, b3, s3 := BlendDeviationScales(t, tr, f, i + 3 * BlockSize);
    var z4, b4, s4 := BlendDeviationScales(t, tr, f, i + 4 * BlockSize);
    LinearHarmonicSum(z0, z1, z2, z3, z4, b0, b1, b2, b3, b4, s0, s1, s2, s3, s4, f, h);
  }

  /**
   * The traits move a pose slot away from the mean walker's pose linearly:
   * scaling every trait by `f` scales the displacement by `f`.
   */
  lemma DeviationScales(t: Tables, tr: Traits, h: Harmonics, f: real, i: nat)
    requires t.Covers(TableLength) && i < BlockSize
    ensures FallbackValues(t, tr.Scaled(f), h)[i] - FallbackValues(t, NoTraits, h)[i] ==
            f * (FallbackValues(t, tr, h)[i] - FallbackValues(t, NoTraits, h)[i])
  {
    SlotDeviationScales(t, tr, h, f, i);
  }

  /**
   * A harmonic sum is linear in its coefficients: coefficients `s` that
   * lie `f` times as far from `a` as `b` do give a sum `f` times as far.
   */
  lemma LinearHarmonicSum(a0: real, a1: real, a2: real, a3: real, a4: real,
                          b0: real, b1: real, b2: real, b3: real, b4: real,
                          s0: real, s1: real, s2: real, s3: real, s4: real, f: real, h: Harmonics)
    requires s0 - a0 == f * (b0 - a0) && s1 - a1 == f * (b1 - a1) && s2 - a2 == f * (b2 - a2)
    requires s3 - a3 == f * (b3 - a3) && s4 - a4 == f * (b4 - a4)
    ensures HarmonicSum(s0, s1, s2, s3, s4, h) - HarmonicSum(a0, a1, a2, a3, a4, h)
         == f * (HarmonicSum(b0, b1, b2, b3, b4, h) - HarmonicSum(a0, a1, a2, a3, a4, h))
  {
  }

  /**
   * On a pose slot the two paths agree exactly when the walker's traits
   * leave that slot at the mean walker's value; anywhere else the matrix
   * path lands six times as far from the mean walker as the fallback.
   */
  lemma PathsAgreeAtSlotIff(t: Tables, tr: Traits, h: Harmonics, i: nat)
    requires t.Uniform() && |t.mean| == TableLength && i < BlockSize
    ensures Stackable(t) && Rectangular(StackedMatrix(t), 6)
    ensures |MatVec(StackedMatrix(t), ScaledWeights(tr))| == TableLength
    ensures MatrixValues(MatVec(StackedMatrix(t), ScaledWeights(tr)), h)[i] == FallbackValues(t, tr, h)[i]
            <==> FallbackValues(t, tr, h)[i] == FallbackValues(t, NoTraits, h)[i]
  {
    MatrixPathIsSixfoldFallback(t, tr, h);
    SixfoldSlotIff(t, tr, h, i);
  }

  /** Slot `i` of the sixfold summation equals the plain one exactly when the traits leave it at the mean. */
  lemma SixfoldSlotIff(t: Tables, tr: Traits, h: Harmonics, i: nat)
    requires t.Covers(TableLength) && i < BlockSize
    ensures FallbackValues(t, tr.Scaled(6.0), h)[i] == FallbackValues(t, tr, h)[i] <==>
            FallbackValues(t, tr, h)[i] == FallbackValues(t, NoTraits, h)[i]
  {
    SlotDeviationScales(t, tr, h, 6.0, i);
    SixfoldDeviationIff(FallbackSlot(t, NoTraits, h, i), FallbackSlot(t, tr, h, i), FallbackSlot(t, tr.Scaled(6.0), h, i));
  }

  /** A value six times as far from `a` as `b` is equals `b` exactly when `b` is `a`. */
  lemma SixfoldDeviationIff(a: real, b: real, c: real)
    requires c - a == 6.0 * (b - a)
    ensures c == b <==> b == a
  {
  }

  /** With every trait zero the matrix path and the fallback give the same 46 slots. */
  lemma PathsAgreeWithoutTraits(t: Tables, tr: Traits, h: Harmonics)
    requires t.Uniform() && |t.mean| == TableLength
    requires tr.gender == 0.0 && tr.weight == 0.0 && tr.nervousness == 0.0
    requires tr.happiness == 0.0 && tr.customness == 0.0
    ensures Stackable(t) && Rectangular(StackedMatrix(t), 6)
    ensures |MatVec(StackedMatrix(t), ScaledWeights(tr))| == TableLength
    ensures MatrixValues(MatVec(StackedMatrix(t), ScaledWeights(tr)), h) == FallbackValues(t, tr, h)
  {
    MatrixPathIsSixfoldFallback(t, tr, h);
    assert tr.Scaled(6.0) == tr;
  }

  /** The records of a pose: landmark i takes z, x and y from slots i, i + 15 and i + 30. */
  function Records(values: Vector, parts: seq<string>): (records: seq<Point>)
    requires FrequencySlot <= |values| && NumMarkers <= |parts|
  {
    seq(NumMarkers, i requires 0 <= i < NumMarkers =>
      Point(parts[i], values[i + NumMarkers], values[i + 2 * NumMarkers], values[i]))
  }

  /** The frequency slot and everything after the spatial slots is never emitted. */
  lemma RecordsIgnoreFrequencySlot(values: Vector, other: Vector, parts: seq<string>)
    requires FrequencySlot <= |values| && FrequencySlot <= |other| && NumMarkers <= |parts|
    requires values[..FrequencySlot] == other[..FrequencySlot]
    ensures Records(values, parts) == Records(other, parts)
  {
    forall i | 0 <= i < NumMarkers
      ensures Records(values, parts)[i] == Records(other, parts)[i]
    {
      assert values[i] == values[..FrequencySlot][i];
      assert values[i + NumMarkers] == values[..FrequencySlot][i + NumMarkers];
      assert values[i + 2 * NumMarkers] == values[..FrequencySlot][i + 2 * NumMarkers];
    }
  }

  /** A difference in any emitted slot shows up in the records. */
  lemma RecordsSeparate(values: Vector, other: Vector, parts: seq<string>, i: nat)
    requires FrequencySlot <= |values| && FrequencySlot <= |other| && NumMarkers <= |parts|
    requires i < FrequencySlot && values[i] != other[i]
    ensures Records(values, parts) != Records(other, parts)
  {
    var m := i % NumMarkers;
    if i < NumMarkers {
      assert Records(values, parts)[m].z != Records(other, parts)[m].z;
    } else if i < 2 * NumMarkers {
      assert Records(values, parts)[m].x != Records(other, parts)[m].x;
    } else {
      assert Records(values, parts)[m].y != Records(other, parts)[m].y;
    }
  }

  /** Two slot vectors give the same records exactly when their 45 emitted slots agree. */
  lemma RecordsEqualIff(values: Vector, other: Vector, parts: seq<string>)
    requires FrequencySlot <= |values| && FrequencySlot <= |other| && NumMarkers <= |parts|
    ensures Records(values, parts) == Records(other, parts) <==> values[..FrequencySlot] == other[..FrequencySlot]
  {
    if values[..FrequencySlot] == other[..FrequencySlot] {
      RecordsIgnoreFrequencySlot(values, other, parts);
    } else {
      var i :| 0 <= i < FrequencySlot && values[..FrequencySlot][i] != other[..FrequencySlot][i];
      RecordsSeparate(values, other, parts, i);
    }
  }

  // ---------------------------------------------------------------------
  // Stride frequency

  /** The frequency slot of five tables blended by four unscaled traits, over the speed. */
  function Frequency(mean: Vector, gender: Vector, weight: Vector, nervous: Vector,
                     happy: Vector, tr: Traits, speed: real): (freq: real)
    requires FrequencySlot < |mean| && FrequencySlot < |gender| && FrequencySlot < |weight|
    requires FrequencySlot < |nervous| && FrequencySlot < |happy| && speed != 0.0
  {
    (mean[FrequencySlot] + tr.gender * gender[FrequencySlot] + tr.weight * weight[FrequencySlot] +
     tr.nervousness * nervous[FrequencySlot] + tr.happiness * happy[FrequencySlot]) / speed
  }

  /** Multiplying the speed by a nonzero `k` divides the frequency by `k`. */
  lemma FrequencyInverseInSpeed(mean: Vector, gender: Vector, weight: Vector, nervous: Vector,
                                happy: Vector, tr: Traits, speed: real, k: real)
    requires FrequencySlot < |mean| && FrequencySlot < |gender| && FrequencySlot < |weight|
    requires FrequencySlot < |nervous| && FrequencySlot < |happy| && speed != 0.0 && k != 0.0
    ensures Frequency(mean, gender, weight, nervous, happy, tr, k * speed) ==
            Frequency(mean, gender, weight, nervous, happy, tr, speed) / k
  {
    var num := mean[FrequencySlot] + tr.gender * gender[FrequencySlot] + tr.weight * weight[FrequencySlot] +
               tr.nervousness * nervous[FrequencySlot] + tr.happiness * happy[FrequencySlot];
    assert num / (k * speed) == (num / speed) / k;
  }

  /** Doubling the speed halves the frequency. */
  lemma DoubleSpeedHalvesFrequency(mean: Vector, gender: Vector, weight: Vector, nervous: Vector,
                                   happy: Vector, tr: Traits, speed: real)
    requires FrequencySlot < |mean| && FrequencySlot < |gender| && FrequencySlot < |weight|
    requires FrequencySlot < |nervous| && FrequencySlot < |happy| && speed != 0.0
    ensures Frequency(mean, gender, weight, nervous, happy, tr, 2.0 * speed) ==
            Frequency(mean, gender, weight, nervous, happy, tr, speed) / 2.0
  {
    FrequencyInverseInSpeed(mean, gender, weight, nervous, happy, tr, speed, 2.0);
  }

  /**
   * The frequency does not follow the blended basis: it weights the axes by
   * the traits themselves, not by six times the traits, so it equals slot 45
   * of Y over the speed only when the four traits it reads leave that slot
   * at the mean walker's value.
   */
  lemma FrequencyVersusBlendedBasis(t: Tables, tr: Traits, speed: real)
    requires t.Uniform() && FrequencySlot < |t.mean| && speed != 0.0 && tr.customness == 0.0
    ensures Stackable(t) && Rectangular(StackedMatrix(t), 6)
    ensures |MatVec(StackedMatrix(t), ScaledWeights(tr))| == |t.mean|
    ensures Frequency(t.mean, t.gender, t.weight, t.nervous, t.happy, tr, speed) ==
            MatVec(StackedMatrix(t), ScaledWeights(tr))[FrequencySlot] / speed
            <==> Blend(t, tr, FrequencySlot) == t.mean[FrequencySlot]
  {
    StackedShape(t);
    BasisSlotIsBlend(t, tr, FrequencySlot);
    var _, _, _ := BlendDeviationScales(t, tr, 6.0, FrequencySlot);
    var f := Frequency(t.mean, t.gender, t.weight, t.nervous, t.happy, tr, speed);
    assert f * speed == Blend(t, tr, FrequencySlot);
  }

  // ---------------------------------------------------------------------
  // Periodicity

  /** sin and cos repeat after 2π at every angle. */
  ghost predicate TwoPiPeriodic(sin: real -> real, cos: real -> real) {
    forall x :: sin(x + 2.0 * Pi) == sin(x) && cos(x + 2.0 * Pi) == cos(x)
  }

  /**
   * When sin and cos are 2π-periodic, so are the four harmonic values, and
   * therefore every pose: a query 2π later in walker time sees the same
   * harmonics.
   */
  lemma HarmonicsPeriodic(sin: real -> real, cos: real -> real, walkertime: real, phase: real, initPhase: real)
    requires TwoPiPeriodic(sin, cos)
    ensures HarmonicsAt(sin, cos, Angle(walkertime + 2.0 * Pi, phase, initPhase)) ==
            HarmonicsAt(sin, cos, Angle(walkertime, phase, initPhase))
  {
    var a := Angle(walkertime, phase, initPhase);
    assert Angle(walkertime + 2.0 * Pi, phase, initPhase) == a + 2.0 * Pi;
    assert sin(a + 2.0 * Pi) == sin(a) && cos(a + 2.0 * Pi) == cos(a);
    var b := 2.0 * a;
    assert 2.0 * (a + 2.0 * Pi) == (b + 2.0 * Pi) + 2.0 * Pi;
    assert sin((b + 2.0 * Pi) + 2.0 * Pi) == sin(b + 2.0 * Pi) == sin(b);
    assert cos((b + 2.0 * Pi) + 2.0 * Pi) == cos(b + 2.0 * Pi) == cos(b);
  }
}
