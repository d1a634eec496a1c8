# Gait-model evaluator

A Dafny model of the gait-model evaluator of the pomocap Blender add-on,
`blender_addon/walker_logic.py`. The evaluator turns a precomputed
statistical gait model into a time-dependent pose of 15 labelled landmarks.
The model has a mean walker, five trait axes and a list of body-part labels.
A pose is a harmonic sum of order two over five 46-slot coefficient blocks:
a static block, then the sin θ, cos θ, sin 2θ and cos 2θ blocks.

The project has five modules:

- `Options` (`options.dfy`): `Option` for Python's `None`, and `Result`.
- `Linear` (`linear.dfy`): the small part of numpy the evaluator uses. That is
  the dot product behind `numpy.matmul`, reshape, transpose and the rows of a
  scaled identity.
- `Gait` (`gait.dfy`): pure functions and lemmas of the model. It holds the
  slot layout (15 markers, blocks of 46, tables of 230, frequency slot 45),
  the trait blend, the stacked matrix `A` and the weight vector `X`, the
  matrix `V` and the product `V·Y`. It also holds the fallback's direct
  summation, the repacking into records and the stride frequency.
- `ModelStore` (`model_store.dfy`): the module globals filled by `load_data`,
  guarded by `data_initialized`.
  - The pure function `Load` says what one call does.
  - The class `Store` holds the globals, and its method `LoadData` assigns them
    one by one, proved equal to `Load`.
- `Walker` (`walker.dfy`): the class `WalkerModel`.
  - It holds the trait fields and the cached `X` and `Y`.
  - Its methods are `__init__` (`Create`, and the constructor for already
    loaded globals), `configure_model`, `getFrequency` and the three pose
    entry points.
  - Each method is proved equal to a pure outcome function (`FrequencyOutcome`,
    `MatrixPose`, `FallbackPose`). Those functions return the value or the
    Python error.

The matrix path weights every trait axis by six (`X = [1, 6g, 6w, 6n, 6h, 6c]`).
The direct summation weights them by the traits themselves. The model makes
this exact:

- On consistent globals whose tables have 230 slots, the matrix path equals
  the direct summation at six times the traits (`Gait.MatrixPathIsSixfoldFallback`,
  `Walker.MatrixPoseIsSixfoldFallback`).
- Slot by slot, the two paths agree exactly when the traits leave that slot at
  the mean walker's value (`Gait.PathsAgreeAtSlotIff`).
- With all traits zero the two paths return the same records
  (`Walker.PosePathsAgreeWithoutTraits`).
- When the traits move an emitted slot, the records differ
  (`Walker.PosePathsDisagree`).

In three places the code does something other than what one might expect. The model follows the code:

- A load that fails partway keeps the globals it already assigned. A missing
  key after `meanwalker`, or a failed reshape, leaves the earlier tables in
  place. Only the flag, which is set last, stays false.
  `ModelStore.MissingAxisKeepsMeanWalker` states one instance of this.
- The landmark count is the constant 15, not the length of `body_parts`. A
  label list shorter than 15 raises an index error when the records are built.
- A speed of zero raises Python's division error. `getFrequency` does not check
  for it first.

Trigonometry is left uninterpreted: each pose method takes `sin` and `cos` as
functions of the angle. The only fact about them that is used is that they
are 2π-periodic (`Gait.TwoPiPeriodic`). The data file is not read: the loader
takes the parsed value (`ModelStore.Json`). `use_numpy` is the constant
`Store.useNumpy`, fixed when the store is created.

## Model

| member | source | states |
|---|---|---|
| ModelStore.Store.constructor | blender_addon/walker_logic.py:20-30 | the globals as the import leaves them: every table, `A` and the labels `None`, the flag false, and consistent |
| ModelStore.Store.LoadData | blender_addon/walker_logic.py:33-76 | the new globals and the error raised are exactly those of `Load`; the globals stay consistent |
| ModelStore.Store.ReadTables | blender_addon/walker_logic.py:54-59 | the six lookups and assignments in order; each missing key raises a KeyError that keeps the earlier tables; on success the store holds the six tables of the data |
| ModelStore.AssignTables | blender_addon/walker_logic.py:54-59 | a run of the six table assignments without error implies that every table key is present |
| ModelStore.InitializedLoadIsNoOp | blender_addon/walker_logic.py:44-45 | with the flag set, a load returns at once and changes no global |
| ModelStore.LoadSucceedsIff | blender_addon/walker_logic.py:44-76 | from an uninitialised store, a load returns normally iff the data is an object holding all seven fields, whatever their values, and, in numpy mode, six numeric tables that reshape to 6 × `len(meanwalker)`; the flag is set iff it returns normally |
| ModelStore.LoadAssignsEveryField | blender_addon/walker_logic.py:54-76 | a successful load assigns every table and the labels from the data's values (null as `None`), in numpy mode `A` stacked from those tables, and sets the flag |
| ModelStore.FailedLoadKeepsFlag | blender_addon/walker_logic.py:76 | a load that raises started uninitialised and leaves the flag false |
| ModelStore.BadDataAssignsNothing | blender_addon/walker_logic.py:47-52 | unreadable, empty or non-object data raises before any global is assigned, with the matching error |
| ModelStore.MissingAxisKeepsMeanWalker | blender_addon/walker_logic.py:54-55 | a missing `genderaxis` raises a KeyError after `meanwalker` has been assigned, and changes nothing else |
| ModelStore.NullTableKeptInFallback | blender_addon/walker_logic.py:54-76 | a null `meanwalker` is assigned as `None`: in fallback mode the load completes and sets the flag; in numpy mode the stacking raises and the flag stays false |
| ModelStore.FirstSuccessWins | blender_addon/walker_logic.py:44-45 | after a successful load, any later load returns normally and changes nothing |
| ModelStore.RetryAfterFailure | blender_addon/walker_logic.py:44-76 | after a failed load, a load of complete data succeeds and sets the flag |
| ModelStore.LoadKeepsConsistent | blender_addon/walker_logic.py:61-76 | every load keeps the invariant: an assigned `A` has six columns, and an initialised numpy-mode store holds all six tables with `A` their stacked matrix |
| Gait.ReshapeShape | blender_addon/walker_logic.py:62-72 | `reshape(rows, cols)` gives `rows` rows of `cols` entries |
| Gait.StackedShape | blender_addon/walker_logic.py:62-73 | `A` has one row of six entries per slot |
| Gait.ReshapedRowIsTable | blender_addon/walker_logic.py:62-72 | row k of the reshaped concatenation is table k, when the six tables have the same length |
| Gait.StackedColumns | blender_addon/walker_logic.py:62-73 | row j of `A` is slot j of the six tables, so column k is table k |
| Gait.BasisSlotIsBlend | blender_addon/walker_logic.py:130-140 | slot j of `A·X` is the blend of slot j with every trait multiplied by six |
| Gait.BlendedBasisAt | blender_addon/walker_logic.py:130-140 | `Y[j] = mean[j] + 6g·gender[j] + 6w·weight[j] + 6n·nervous[j] + 6h·happy[j] + 6c·custom[j]` |
| Gait.NoTraitsBasisIsMean | blender_addon/walker_logic.py:130-140 | with every trait zero, `Y` is the mean walker |
| Gait.BasisIsSixfoldBlend | blender_addon/walker_logic.py:130-140 | `Y` is the slot-by-slot blend of the tables at six times the traits |
| Gait.MatrixValuesAt | blender_addon/walker_logic.py:160-170 | `V·Y` has 46 slots, and slot j is `Y[j] + Y[j+46]·sin θ + Y[j+92]·cos θ + Y[j+138]·sin 2θ + Y[j+184]·cos 2θ` |
| Gait.MatrixValuesOfBlend | blender_addon/walker_logic.py:196-260 | `V` applied to the blended tables gives the 46 slots of the direct summation with the same traits |
| Gait.MatrixPathIsSixfoldFallback | blender_addon/walker_logic.py:150-170 | on uniform 230-slot tables, `V·(A·X)` equals the direct summation with every trait multiplied by six |
| Gait.BlendDeviationScales | blender_addon/walker_logic.py:197-204 | without traits a slot's blend is the mean walker's value; scaling the traits by f scales the blend's distance from it by f |
| Gait.SlotDeviationScales | blender_addon/walker_logic.py:196-258 | scaling the traits by f scales a pose slot's distance from the mean walker's pose by f |
| Gait.DeviationScales | blender_addon/walker_logic.py:196-260 | the same for the slots of the fallback's value list |
| Gait.LinearHarmonicSum | blender_addon/walker_logic.py:206-258 | the harmonic sum of five coefficients is linear in them |
| Gait.SixfoldSlotIff | blender_addon/walker_logic.py:196-260 | a slot at six times the traits equals the slot at the traits iff the traits leave it at the mean walker's value |
| Gait.PathsAgreeAtSlotIff | blender_addon/walker_logic.py:186-192 | slot i of the matrix path equals slot i of the fallback iff the traits leave slot i at the mean walker's value |
| Gait.PathsAgreeWithoutTraits | blender_addon/walker_logic.py:186-192 | with every trait zero both paths give the same 46 slots |
| Gait.RecordsIgnoreFrequencySlot | blender_addon/walker_logic.py:174-182 | records depend only on slots 0 to 44; slot 45 and later are never emitted |
| Gait.RecordsSeparate | blender_addon/walker_logic.py:264-272 | a difference in any of slots 0 to 44 appears in the records |
| Gait.RecordsEqualIff | blender_addon/walker_logic.py:174-182 | two slot lists give the same records iff their first 45 slots agree |
| Gait.FrequencyInverseInSpeed | blender_addon/walker_logic.py:142-148 | multiplying the speed by a nonzero k divides the frequency by k |
| Gait.DoubleSpeedHalvesFrequency | blender_addon/walker_logic.py:148 | doubling the speed halves the frequency |
| Gait.FrequencyVersusBlendedBasis | blender_addon/walker_logic.py:142-148 | the frequency equals slot 45 of `Y` over the speed iff the traits leave slot 45 at the mean walker's value, because it uses the traits without the factor 6 |
| Gait.HarmonicsPeriodic | blender_addon/walker_logic.py:154-158 | with 2π-periodic sin and cos, the four harmonic values repeat after 2π of walker time |
| Walker.FirstUnreadable | blender_addon/walker_logic.py:197-203 | no error iff every table read is set and has the slot |
| Walker.MatrixPoseIsSixfoldFallback | blender_addon/walker_logic.py:186-192 | on consistent numpy-mode globals with 230-slot tables, the matrix path's records, or error, equal the fallback's at six times the traits |
| Walker.PosePathsAgreeWithoutTraits | blender_addon/walker_logic.py:186-192 | with every trait zero both paths return the same result |
| Walker.PosePathsDisagree | blender_addon/walker_logic.py:186-192 | when the traits move an emitted slot from the mean walker's value, the two paths return different records |
| Walker.NullMeanWalkerRaisesOnUse | blender_addon/walker_logic.py:142-143 | after a fallback-mode load of a null `meanwalker`, the flag is set, and both `getFrequency` and the direct summation raise the `None` error |
| Walker.PosePeriodic | blender_addon/walker_logic.py:150-274 | both paths give the same result 2π later in walker time |
| Walker.BuildRecords | blender_addon/walker_logic.py:172-184 | 15 records in label order, record i holding z = v[i], x = v[i+15], y = v[i+30] and label i; `None` labels or fewer than 15 raise |
| Walker.SumSlot | blender_addon/walker_logic.py:197-258 | one pass of the summation loop gives the fallback's slot i: the blend of slot i plus the four harmonic blocks' blends weighted by sin θ, cos θ, sin 2θ and cos 2θ |
| Walker.SumSlots | blender_addon/walker_logic.py:195-260 | the loop builds the 46 slots of the direct summation, in order |
| Walker.FallbackWalkerMatrixPathRaises | blender_addon/walker_logic.py:150-152 | in fallback mode, calling the matrix path on a new walker raises its configuration error, because `X` and `Y` keep their `None` defaults |
| Walker.WalkerModel.constructor | blender_addon/walker_logic.py:107-113 | on loaded globals, the walker holds the given traits, a customness of 0 and the given speed; in numpy mode its `X` and `Y` match those traits, in fallback mode both are `None` |
| Walker.WalkerModel.Create | blender_addon/walker_logic.py:92-113 | loads first when the globals are uninitialised; the globals become those of `Load`; raises exactly when that load raises; otherwise returns a configured walker, whose `X` and `Y` are `None` in fallback mode |
| Walker.WalkerModel.ConfigureModel | blender_addon/walker_logic.py:115-140 | the five trait fields are all overwritten; in numpy mode `X = [1, 6g, 6w, 6n, 6h, 6c]` and `Y = A·X`; an unset `A` raises after `X` is set; otherwise `X` and `Y` are unchanged |
| Walker.WalkerModel.GetFrequency | blender_addon/walker_logic.py:142-148 | returns `(mean[45] + g·gender[45] + w·weight[45] + n·nervous[45] + h·happy[45]) / speed`; raises for an unset or short table (the first one read) or a zero speed |
| Walker.WalkerModel.DerivePoseCoordinatesNumpyMatrix | blender_addon/walker_logic.py:150-184 | raises unless `A`, `X` and `Y` are set, and raises if `Y` does not have 230 slots; otherwise the records of `V·Y` at the query angle |
| Walker.WalkerModel.DerivePoseCoordinatesFallback | blender_addon/walker_logic.py:194-274 | raises for the first unset or empty table, or for any table shorter than 230; otherwise the records of the 46 direct sums at the query angle |
| Walker.WalkerModel.DerivePoseCoordinates | blender_addon/walker_logic.py:186-192 | the matrix path in numpy mode, the fallback otherwise; for a valid numpy-mode walker on uniform 230-slot tables, the fallback's result at six times the walker's traits |

## Left out

- Reading the data file (`open`, `json.load`, and the choice between `data_file_path` and `DATA_FILE_PATH`) is not modelled. The loader takes the parsed value, or the fact that reading failed.
- ModelStore.Load: a field's value is a numeric array, a string array, null or something else (`ModelStore.Value`). A table holding null is stored as `None`, as the source stores it. A table holding anything other than a numeric array or null is also stored as `None`, and so is a `body_parts` holding anything other than a string array. The source stores such values unchanged. In fallback mode the load completes in both cases. The model then raises the `None` error where the source, by Python's dynamic typing, may raise a `TypeError` or `IndexError` later or compute with the values. In numpy mode the model raises the reshape error for such a table; numpy raises it for null, but may stack strings or objects and fail only later.
- The numpy import probe is not modelled. `use_numpy` is a constant of the store.
- Logging and the `__main__` block are not modelled. They do not affect any result.
- Floating point is not modelled. Numbers are reals, so rounding and the order of the additions inside one blend do not matter. `math.sin` and `math.cos` are uninterpreted functions.
- The class attributes `structure_*_scale` and `motion_*_scale` are not modelled. Nothing in the file reads them.
- The Python error kinds are reduced to a few cases, and their messages are not modelled. `None` reads are `NoneValue`, index errors are `IndexOutOfRange`, and the numpy shape error is `ShapeMismatch`. The matrix path's own check is `NotConfigured`.
- Python's dynamic typing is not modelled. Traits are reals, not arbitrary objects.
- The Blender operators and panels, the host's frame schedule and the other scripts of the repository are not part of this model.
