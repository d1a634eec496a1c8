/**
 * A walker: its trait configuration, the blended basis it caches, its
 * stride frequency and the two ways of evaluating its pose.  The functions
 * at the top say what each query returns for given globals and fields; the
 * class `WalkerModel` holds the fields and its methods are proved to return
 * exactly that.
 */
module Walker {
  import opened Options
  import opened Linear
  import opened Gait
  import opened ModelStore

  /** Why a query of a walker raised. */
  datatype EvalError =
    | NotConfigured    // the matrix path's own check that A, X and Y are set
    | NoneValue        // a table or the label list read while still None
    | IndexOutOfRange  // a table or the label list too short for the slot read
    | ShapeMismatch    // numpy.matmul of V with a Y that does not have 230 entries
    | DivisionByZero   // a speed of zero

  /**
   * The error of the first of `tables` that is unset or has no slot `j`, in
   * the order the source reads them at slot `j`.
   */
  function FirstUnreadable(tables: seq<Option<Vector>>, j: nat): (e: Option<EvalError>)
    ensures e.None? <==> forall k :: 0 <= k < |tables| ==> tables[k].Some? && j < |tables[k].value|
  {
    if |tables| == 0 then None
    else if tables[0].None? then Some(NoneValue)
    else if j >= |tables[0].value| then Some(IndexOutOfRange)
    else FirstUnreadable(tables[1..], j)
  }

  /** The five tables the frequency reads, in the order it reads them. */
  function FrequencyTables(g: Globals): (tables: seq<Option<Vector>>) {
    [g.meanWalker, g.genderAxis, g.weightAxis, g.nervousAxis, g.happyAxis]
  }

  /** The six tables the direct summation reads, in the order it reads them. */
  function SummationTables(g: Globals): (tables: seq<Option<Vector>>) {
    [g.meanWalker, g.genderAxis, g.weightAxis, g.nervousAxis, g.happyAxis, g.customAxis]
  }

  /** What `getFrequency` returns or raises for the globals `g`, traits `tr` and `speed`. */
  function FrequencyOutcome(g: Globals, tr: Traits, speed: real): (r: Result<real, EvalError>) {
    var e := FirstUnreadable(FrequencyTables(g), FrequencySlot);
    if e.Some? then Failure(e.value)
    else if speed == 0.0 then Failure(DivisionByZero)
    else
      assert FrequencyTables(g)[0].Some? && FrequencyTables(g)[1].Some? && FrequencyTables(g)[2].Some?;
      assert FrequencyTables(g)[3].Some? && FrequencyTables(g)[4].Some?;
      Success(Frequency(g.meanWalker.value, g.genderAxis.value, g.weightAxis.value,
                        g.nervousAxis.value, g.happyAxis.value, tr, speed))
  }

  /** The 15 records of 46 slots, or the error reading the label list raises. */
  function RecordsOutcome(values: Vector, parts: Option<seq<string>>): (r: Result<seq<Point>, EvalError>)
    requires |values| == BlockSize
  {
    if parts.None? then Failure(NoneValue)
    else if |parts.value| < NumMarkers then Failure(IndexOutOfRange)
    else Success(Records(values, parts.value))
  }

  /** What the matrix path returns or raises for the globals `g`, a walker's X and Y and harmonics `h`. */
  function MatrixPose(g: Globals, x: Option<Vector>, y: Option<Vector>, h: Harmonics): (r: Result<seq<Point>, EvalError>) {
    if g.a.None? || x.None? || y.None? then Failure(NotConfigured)
    else if |y.value| != TableLength then Failure(ShapeMismatch)
    else RecordsOutcome(MatrixValues(y.value, h), g.bodyParts)
  }

  /** What the direct summation returns or raises for the globals `g`, traits `tr` and harmonics `h`. */
  function FallbackPose(g: Globals, tr: Traits, h: Harmonics): (r: Result<seq<Point>, EvalError>) {
    var e := FirstUnreadable(SummationTables(g), 0);
    if e.Some? then Failure(e.value)
    else
      assert SummationTables(g)[0].Some? && SummationTables(g)[1].Some? && SummationTables(g)[2].Some?;
      assert SummationTables(g)[3].Some? && SummationTables(g)[4].Some? && SummationTables(g)[5].Some?;
      var t := g.Tables().value;
      if !t.Covers(TableLength) then Failure(IndexOutOfRange)
      else RecordsOutcome(FallbackValues(t, tr, h), g.bodyParts)
  }

  /**
   * The two paths on consistent numpy-mode globals whose tables have exactly
   * 230 slots: the matrix path, with X and Y derived from traits `tr`, gives
   * the records the direct summation gives at six times `tr`.
   */
  lemma MatrixPoseIsSixfoldFallback(g: Globals, tr: Traits, h: Harmonics)
    requires Consistent(g, true) && g.dataInitialized
    requires g.Tables().value.Uniform() && |g.Tables().value.mean| == TableLength
    ensures Rectangular(g.a.value, 6)
    ensures MatrixPose(g, Some(ScaledWeights(tr)), Some(MatVec(g.a.value, ScaledWeights(tr))), h) ==
            FallbackPose(g, tr.Scaled(6.0), h)
  {
    var t := g.Tables().value;
    MatrixPathIsSixfoldFallback(t, tr, h);
    assert FirstUnreadable(SummationTables(g), 0).None?;
  }

  /** With every trait zero both paths return the same records, or raise the same error. */
  lemma PosePathsAgreeWithoutTraits(g: Globals, tr: Traits, h: Harmonics)
    requires Consistent(g, true) && g.dataInitialized
    requires g.Tables().value.Uniform() && |g.Tables().value.mean| == TableLength
    requires tr.gender == 0.0 && tr.weight == 0.0 && tr.nervousness == 0.0
    requires tr.happiness == 0.0 && tr.customness == 0.0
    ensures Rectangular(g.a.value, 6)
    ensures MatrixPose(g, Some(ScaledWeights(tr)), Some(MatVec(g.a.value, ScaledWeights(tr))), h) ==
            FallbackPose(g, tr, h)
  {
    MatrixPoseIsSixfoldFallback(g, tr, h);
    assert tr.Scaled(6.0) == tr;
  }

  /**
   * When the traits move an emitted slot away from the mean walker's value,
   * the two paths return different records.
   */
  lemma PosePathsDisagree(g: Globals, tr: Traits, h: Harmonics, i: nat)
    requires Consistent(g, true) && g.dataInitialized
    requires g.Tables().value.Uniform() && |g.Tables().value.mean| == TableLength
    requires g.bodyParts.Some? && |g.bodyParts.value| >= NumMarkers && i < FrequencySlot
    requires FallbackValues(g.Tables().value, tr, h)[i] != FallbackValues(g.Tables().value, NoTraits, h)[i]
    ensures Rectangular(g.a.value, 6)
    ensures MatrixPose(g, Some(ScaledWeights(tr)), Some(MatVec(g.a.value, ScaledWeights(tr))), h) !=
            FallbackPose(g, tr, h)
  {
    var t := g.Tables().value;
    MatrixPathIsSixfoldFallback(t, tr, h);
    PathsAgreeAtSlotIff(t, tr, h, i);
    assert FirstUnreadable(SummationTables(g), 0).None?;
    var y := MatVec(StackedMatrix(t), ScaledWeights(tr));
    RecordsSeparate(MatrixValues(y, h), FallbackValues(t, tr, h), g.bodyParts.value, i);
  }

  /**
   * A fallback-mode load of a null mean walker completes, and then every
   * query that reads the mean walker raises on it.
   */
  lemma NullMeanWalkerRaisesOnUse(g: Globals, doc: Json, tr: Traits, speed: real, h: Harmonics)
    requires !g.dataInitialized && Complete(doc) && doc.fields["meanwalker"] == Null
    ensures Load(g, doc, false).globals.dataInitialized
    ensures FrequencyOutcome(Load(g, doc, false).globals, tr, speed) == Failure(NoneValue)
    ensures FallbackPose(Load(g, doc, false).globals, tr, h) == Failure(NoneValue)
  {
    NullTableKeptInFallback(g, doc);
  }

  /** Every pose repeats after 2π of walker time when sin and cos do. */
  lemma PosePeriodic(g: Globals, tr: Traits, x: Option<Vector>, y: Option<Vector>,
                     sin: real -> real, cos: real -> real, walkertime: real, phase: real, initPhase: real)
    requires TwoPiPeriodic(sin, cos)
    ensures MatrixPose(g, x, y, HarmonicsAt(sin, cos, Angle(walkertime + 2.0 * Pi, phase, initPhase))) ==
            MatrixPose(g, x, y, HarmonicsAt(sin, cos, Angle(walkertime, phase, initPhase)))
    ensures FallbackPose(g, tr, HarmonicsAt(sin, cos, Angle(walkertime + 2.0 * Pi, phase, initPhase))) ==
            FallbackPose(g, tr, HarmonicsAt(sin, cos, Angle(walkertime, phase, initPhase)))
  {
    HarmonicsPeriodic(sin, cos, walkertime, phase, initPhase);
  }

  /**
   * The repacking loop of both paths: record i takes z, x and y from slots
   * i, i + 15 and i + 30 and its label from the list.
   */
  method BuildRecords(values: Vector, parts: Option<seq<string>>) returns (r: Result<seq<Point>, EvalError>)
    requires |values| == BlockSize
    ensures r == RecordsOutcome(values, parts)
    ensures r.Success? ==>
              |r.value| == NumMarkers &&
              forall i :: 0 <= i < NumMarkers ==>
                r.value[i] == Point(parts.value[i], values[i + NumMarkers], values[i + 2 * NumMarkers], values[i])
  {
    if parts.None? {
      return Failure(NoneValue);
    }
    var labels := parts.value;
    var retVal: seq<Point> := [];
    for i := 0 to NumMarkers
      invariant i <= |labels|
      invariant |retVal| == i
      invariant forall k :: 0 <= k < i ==>
                  retVal[k] == Point(labels[k], values[k + NumMarkers], values[k + 2 * NumMarkers], values[k])
    {
      if i >= |labels| {
        return Failure(IndexOutOfRange);
      }
      retVal := retVal + [Point(labels[i], values[i + NumMarkers], values[i + 2 * NumMarkers], values[i])];
    }
    assert retVal == Records(values, labels);
    return Success(retVal);
  }

  /**
   * One pass of the fallback's summation loop: the blend of slot i plus the
   * four harmonic blocks' blends weighted by sin θ, cos θ, sin 2θ and cos 2θ.
   */
  method SumSlot(t: Tables, tr: Traits, sin: real -> real, cos: real -> real, angle: real, i: nat)
    returns (sumVal: real)
    requires t.Covers(TableLength) && i < BlockSize
    ensures sumVal == FallbackSlot(t, tr, HarmonicsAt(sin, cos, angle), i)
  {
    var initialpos := Blend(t, tr, i);
    var motionpos := Blend(t, tr, i + BlockSize) * sin(angle) +
                     Blend(t, tr, i + 2 * BlockSize) * cos(angle) +
                     Blend(t, tr, i + 3 * BlockSize) * sin(2.0 * angle) +
                     Blend(t, tr, i + 4 * BlockSize) * cos(2.0 * angle);
    sumVal := initialpos + motionpos;
  }

  /** The summation loop of the fallback: the 46 slots, in order. */
  method SumSlots(t: Tables, tr: Traits, sin: real -> real, cos: real -> real, angle: real)
    returns (values: Vector)
    requires t.Covers(TableLength)
    ensures values == FallbackValues(t, tr, HarmonicsAt(sin, cos, angle))
  {
    ghost var h := HarmonicsAt(sin, cos, angle);
    values := [];
    for i := 0 to BlockSize
      invariant |values| == i
      invariant forall k :: 0 <= k < i ==> values[k] == FallbackSlot(t, tr, h, k)
    {
      var sumVal := SumSlot(t, tr, sin, cos, angle, i);
      values := values + [sumVal];
    }
    assert values == FallbackValues(t, tr, h);
  }

  /**
   * In fallback mode a new walker leaves X and Y unset, so calling the matrix
   * path directly raises its own configuration error.
   */
  method FallbackWalkerMatrixPathRaises(store: Store, walkertime: real, sin: real -> real, cos: real -> real)
    returns (r: Result<seq<Point>, EvalError>)
    requires store.Valid() && store.dataInitialized && !store.useNumpy
    ensures r == Failure(NotConfigured)
  {
    var w := new WalkerModel(store);
    r := w.DerivePoseCoordinatesNumpyMatrix(walkertime, sin, cos);
  }

  /** One walker: its traits, and in numpy mode the cached weight vector X and blended basis Y. */
  class WalkerModel {
    /** The module globals the walker reads. */
    const store: Store
    /** Class defaults that nothing assigns. */
    const walkerCustomness: real := 0.0
    const phase: real := 0.0
    const walkerInitPhase: real := 0.0

    var walkerGender: real
    var walkerWeight: real
    var walkerNervousness: real
    var walkerHappiness: real
    var walkerSpeed: real
    var X: Option<Vector>
    var Y: Option<Vector>

    /** The five trait weights, customness included. */
    function Traits(): (tr: Gait.Traits)
      reads this
    {
      Gait.Traits(walkerGender, walkerWeight, walkerNervousness, walkerHappiness, walkerCustomness)
    }

    /**
     * The walker sits on loaded globals and, in numpy mode, X and Y are the
     * weight vector and blended basis of its current traits.
     */
    ghost predicate Valid()
      reads this, store
    {
      && store.Valid() && store.dataInitialized
      && (store.useNumpy ==>
            && X == Some(ScaledWeights(Traits())) && store.a.Some?
            && Y == Some(MatVec(store.a.value, X.value)))
    }

    /** `__init__` on globals that are already loaded: only the configuration runs. */
    constructor (store: Store, walkerGender: real := 1.0, walkerWeight: real := 1.0,
                 walkerNervousness: real := 1.0, walkerHappiness: real := 1.0, walkerSpeed: real := 1.0)
      requires store.Valid() && store.dataInitialized
      ensures this.store == store && Valid()
      ensures Traits() == Gait.Traits(walkerGender, walkerWeight, walkerNervousness, walkerHappiness, 0.0)
      ensures this.walkerSpeed == walkerSpeed
      ensures !store.useNumpy ==> X.None? && Y.None?
    {
      this.store := store;
      X, Y := None, None;
      new;
      var error := ConfigureModel(walkerGender, walkerWeight, walkerNervousness, walkerHappiness, walkerSpeed);
    }

    /**
     * `__init__`: loads the data first when the globals are not yet
     * initialised, and raises the loader's error if that load fails.
     */
    static method Create(store: Store, doc: Json, walkerGender: real := 1.0, walkerWeight: real := 1.0,
                         walkerNervousness: real := 1.0, walkerHappiness: real := 1.0,
                         walkerSpeed: real := 1.0)
      returns (r: Result<WalkerModel, LoadError>)
      requires store.Valid()
      modifies store
      ensures store.Valid()
      ensures store.State() == Load(old(store.State()), doc, store.useNumpy).globals
      ensures r.Failure? <==> Load(old(store.State()), doc, store.useNumpy).error.Some?
      ensures r.Failure? ==> Load(old(store.State()), doc, store.useNumpy).error == Some(r.error)
      ensures r.Success? ==> fresh(r.value) && r.value.store == store && r.value.Valid()
      ensures r.Success? ==>
                r.value.Traits() == Gait.Traits(walkerGender, walkerWeight, walkerNervousness, walkerHappiness, 0.0) &&
                r.value.walkerSpeed == walkerSpeed
      ensures r.Success? && !store.useNumpy ==> r.value.X.None? && r.value.Y.None?
    {
      if !store.dataInitialized {
        var error := store.LoadData(doc);
        if error.Some? {
          return Failure(error.value);
        }
        LoadSucceedsIff(old(store.State()), doc, store.useNumpy);
      }
      var w := new WalkerModel(store, walkerGender, walkerWeight, walkerNervousness, walkerHappiness, walkerSpeed);
      return Success(w);
    }

    /**
     * `configure_model`: overwrites the five trait fields together; in numpy
     * mode sets X = [1, 6g, 6w, 6n, 6h, 6c] and then Y = A·X, which raises
     * when A is unset.
     */
    method ConfigureModel(walkerGender: real := 1.0, walkerWeight: real := 1.0,
                          walkerNervousness: real := 1.0, walkerHappiness: real := 1.0,
                          walkerSpeed: real := 1.0)
      returns (error: Option<EvalError>)
      requires store.Valid()
      modifies this
      ensures this.walkerGender == walkerGender && this.walkerWeight == walkerWeight
      ensures this.walkerNervousness == walkerNervousness && this.walkerHappiness == walkerHappiness
      ensures this.walkerSpeed == walkerSpeed
      ensures X == if store.useNumpy then Some(ScaledWeights(Traits())) else old(X)
      ensures Y == if store.useNumpy && store.a.Some? then Some(MatVec(store.a.value, ScaledWeights(Traits())))
                   else old(Y)
      ensures error == if store.useNumpy && store.a.None? then Some(NoneValue) else None
      ensures store.dataInitialized ==> Valid()
    {
      this.walkerGender := walkerGender;
      this.walkerWeight := walkerWeight;
      this.walkerNervousness := walkerNervousness;
      this.walkerHappiness := walkerHappiness;
      this.walkerSpeed := walkerSpeed;
      error := None;
      if store.useNumpy {
        X := Some([1.0, 6.0 * this.walkerGender, 6.0 * this.walkerWeight, 6.0 * this.walkerNervousness,
                   6.0 * this.walkerHappiness, 6.0 * walkerCustomness]);
        if store.a.None? {
          return Some(NoneValue);
        }
        Y := Some(MatVec(store.a.value, X.value));
      }
    }

    /** `getFrequency`: slot 45 of five tables blended by the unscaled traits, over the speed. */
    method GetFrequency() returns (r: Result<real, EvalError>)
      ensures r == FrequencyOutcome(store.State(), Traits(), walkerSpeed)
    {
      var e := FirstUnreadable(FrequencyTables(store.State()), FrequencySlot);
      if e.Some? {
        return Failure(e.value);
      }
      assert FrequencyTables(store.State())[0].Some? && FrequencyTables(store.State())[1].Some?;
      assert FrequencyTables(store.State())[2].Some? && FrequencyTables(store.State())[3].Some?;
      assert FrequencyTables(store.State())[4].Some?;
      var speed := store.meanWalker.value[FrequencySlot];
      speed := speed + walkerGender * store.genderAxis.value[FrequencySlot];
      speed := speed + walkerWeight * store.weightAxis.value[FrequencySlot];
      speed := speed + walkerNervousness * store.nervousAxis.value[FrequencySlot];
      speed := speed + walkerHappiness * store.happyAxis.value[FrequencySlot];
      if walkerSpeed == 0.0 {
        return Failure(DivisionByZero);
      }
      assert speed / walkerSpeed == Frequency(store.meanWalker.value, store.genderAxis.value, store.weightAxis.value,
                        store.nervousAxis.value, store.happyAxis.value, Traits(), walkerSpeed);
      return Success(speed / walkerSpeed);
    }

    /**
     * `derive_pose_coordinates_numpy_matrix`: raises unless A, X and Y are
     * set, multiplies V by the cached Y and repacks the result.
     */
    method DerivePoseCoordinatesNumpyMatrix(walkertime: real, sin: real -> real, cos: real -> real)
      returns (r: Result<seq<Point>, EvalError>)
      ensures r == MatrixPose(store.State(), X, Y, HarmonicsAt(sin, cos, Angle(walkertime, phase, walkerInitPhase)))
    {
      if store.a.None? || X.None? || Y.None? {
        return Failure(NotConfigured);
      }
      var intVal := Angle(walkertime, phase, walkerInitPhase);
      var h := Harmonics(sin(intVal), cos(intVal), sin(2.0 * intVal), cos(2.0 * intVal));
      if |Y.value| != TableLength {
        return Failure(ShapeMismatch);
      }
      var res := MatrixValues(Y.value, h);
      r := BuildRecords(res, store.bodyParts);
    }

    /**
     * `derive_pose_coordinates_fallback`: the 46 slots by direct summation
     * over the five blocks, then repacked.
     */
    method DerivePoseCoordinatesFallback(walkertime: real, sin: real -> real, cos: real -> real)
      returns (r: Result<seq<Point>, EvalError>)
      ensures r == FallbackPose(store.State(), Traits(), HarmonicsAt(sin, cos, Angle(walkertime, phase, walkerInitPhase)))
    {
      var e := FirstUnreadable(SummationTables(store.State()), 0);
      if e.Some? {
        return Failure(e.value);
      }
      assert SummationTables(store.State())[0].Some? && SummationTables(store.State())[1].Some?;
      assert SummationTables(store.State())[2].Some? && SummationTables(store.State())[3].Some?;
      assert SummationTables(store.State())[4].Some? && SummationTables(store.State())[5].Some?;
      var t := store.State().Tables().value;
      if !t.Covers(TableLength) {
        return Failure(IndexOutOfRange);
      }
      var values := SumSlots(t, Traits(), sin, cos, Angle(walkertime, phase, walkerInitPhase));
      r := BuildRecords(values, store.bodyParts);
    }

    /** `derive_pose_coordinates`: the matrix path in numpy mode, the direct summation otherwise. */
    method DerivePoseCoordinates(walkertime: real, sin: real -> real, cos: real -> real)
      returns (r: Result<seq<Point>, EvalError>)
      ensures r == if store.useNumpy
                   then MatrixPose(store.State(), X, Y, HarmonicsAt(sin, cos, Angle(walkertime, phase, walkerInitPhase)))
                   else FallbackPose(store.State(), Traits(), HarmonicsAt(sin, cos, Angle(walkertime, phase, walkerInitPhase)))
      ensures Valid() && store.useNumpy && store.State().Tables().value.Uniform() &&
              |store.meanWalker.value| == TableLength ==>
                r == FallbackPose(store.State(), Traits().Scaled(6.0),
                                  HarmonicsAt(sin, cos, Angle(walkertime, phase, walkerInitPhase)))
    {
      if store.useNumpy {
        r := DerivePoseCoordinatesNumpyMatrix(walkertime, sin, cos);
        if Valid() && store.State().Tables().value.Uniform() && |store.meanWalker.value| == TableLength {
          MatrixPoseIsSixfoldFallback(store.State(), Traits(), HarmonicsAt(sin, cos, Angle(walkertime, phase, walkerInitPhase)));
        }
      } else {
        r := DerivePoseCoordinatesFallback(walkertime, sin, cos);
      }
    }
  }
}
