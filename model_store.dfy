/**
 * The module-wide coefficient store filled by `load_data`: the mean walker,
 * the five trait axes, the body-part labels and, in numpy mode, the stacked
 * matrix A, guarded by the `data_initialized` flag.
 *
 * Reading and parsing the data file is not modelled: the loader is given
 * what `json.load` produced (or that it failed).  The pure function `Load`
 * says what one call does to the globals; the class `Store` holds the
 * globals and its method `LoadData` performs the same assignments one by
 * one, proved to agree with `Load`.
 */
module ModelStore {
  import opened Options
  import opened Linear
  import opened Gait

  /** The value of one field of the parsed object. */
  datatype Value =
    | Numbers(items: Vector)      // an array of numbers
    | Labels(names: seq<string>)  // an array of strings (`[]` may be either)
    | Null                        // null, which json.load turns into None
    | OtherValue                  // any other value: a number, a string, an object, a mixed array

  /** What reading the data file produced. */
  datatype Json =
    | ReadFailure                 // open or json.load raised
    | Falsy                       // null, false, 0, "" or []
    | NonObject                   // a number, string or list that is not empty
    | Object(fields: map<string, Value>)
      // an object, with the value of every field it has

  /**
   * What a table global holds after the loader assigns it the value `v`:
   * the numbers of a numeric array, None for null.  Any other value is
   * one the evaluator cannot compute with, and is held as None too.
   */
  function TableOf(v: Value): (r: Option<Vector>)
    ensures r.Some? <==> v.Numbers? || (v.Labels? && |v.names| == 0)
    ensures v.Numbers? ==> r == Some(v.items)
  {
    match v
    case Numbers(items) => Some(items)
    case Labels(names) => if |names| == 0 then Some([]) else None
    case Null => None
    case OtherValue => None
  }

  /**
   * What the label global holds after the loader assigns it the value `v`:
   * the strings of a string array, None for null and for any other value.
   */
  function LabelsOf(v: Value): (r: Option<seq<string>>)
    ensures r.Some? <==> v.Labels? || (v.Numbers? && |v.items| == 0)
    ensures v.Labels? ==> r == Some(v.names)
  {
    match v
    case Numbers(items) => if |items| == 0 then Some([]) else None
    case Labels(names) => Some(names)
    case Null => None
    case OtherValue => None
  }

  /** Why a call of the loader raised. */
  datatype LoadError =
    | FileUnreadable              // the error of open or json.load
    | NoData                      // the parsed data is empty
    | NotAnObject                 // a field lookup on data that is not an object
    | MissingKey(key: string)     // KeyError for a required field
    | CannotReshape               // the six tables do not fill a 6 x |meanwalker| array

  /** The module globals the loader assigns; None is Python's None. */
  datatype Globals = Globals(
    meanWalker: Option<Vector>,
    genderAxis: Option<Vector>,
    weightAxis: Option<Vector>,
    nervousAxis: Option<Vector>,
    happyAxis: Option<Vector>,
    customAxis: Option<Vector>,
    a: Option<Matrix>,
    bodyParts: Option<seq<string>>,
    dataInitialized: bool)
  {
    /** The six tables, when all of them are assigned. */
    function Tables(): (t: Option<Gait.Tables>) {
      if meanWalker.Some? && genderAxis.Some? && weightAxis.Some? &&
         nervousAxis.Some? && happyAxis.Some? && customAxis.Some?
      then Some(Gait.Tables(meanWalker.value, genderAxis.value, weightAxis.value,
                            nervousAxis.value, happyAxis.value, customAxis.value))
      else None
    }
  }

  /** The globals when the module is imported. */
  const Initial: Globals := Globals(None, None, None, None, None, None, None, None, false)

  /** What one call of the loader leaves behind: the globals and the error it raised, if any. */
  datatype LoadRun = LoadRun(globals: Globals, error: Option<LoadError>)

  /** The six table fields of the data file, in the order the loader reads them. */
  const TableKeys: seq<string> :=
    ["meanwalker", "genderaxis", "weightaxis", "nervousaxis", "happyaxis", "customaxis"]

  /** The six tables of a parsed object, when every one of them is a numeric array. */
  function TablesOf(fields: map<string, Value>): (r: Option<Gait.Tables>)
    requires forall k :: k in TableKeys ==> k in fields
    ensures r.Some? <==> forall k :: k in TableKeys ==> TableOf(fields[k]).Some?
  {
    var m, g, w := TableOf(fields["meanwalker"]), TableOf(fields["genderaxis"]), TableOf(fields["weightaxis"]);
    var n, h, c := TableOf(fields["nervousaxis"]), TableOf(fields["happyaxis"]), TableOf(fields["customaxis"]);
    if m.Some? && g.Some? && w.Some? && n.Some? && h.Some? && c.Some?
    then Some(Gait.Tables(m.value, g.value, w.value, n.value, h.value, c.value))
    else None
  }

  /** The parsed data is an object that holds every field the loader reads, whatever their values. */
  predicate Complete(doc: Json) {
    doc.Object? && (forall k :: k in TableKeys ==> k in doc.fields) && "body_parts" in doc.fields
  }

  /** Whether numpy can stack the tables of a complete document: all numeric, and of fitting sizes. */
  predicate Reshapable(doc: Json)
    requires Complete(doc)
  {
    TablesOf(doc.fields).Some? && Stackable(TablesOf(doc.fields).value)
  }

  /**
   * One call of the loader.  An initialised store returns at once.  Otherwise
   * the fields are assigned one at a time, so a KeyError or a failed reshape
   * leaves the fields assigned before it in place; the flag is set only by
   * the last step.
   */
  function Load(g: Globals, doc: Json, useNumpy: bool): (run: LoadRun) {
    if g.dataInitialized then LoadRun(g, None)
    else match doc
      case ReadFailure => LoadRun(g, Some(FileUnreadable))
      case Falsy => LoadRun(g, Some(NoData))
      case NonObject => LoadRun(g, Some(NotAnObject))
      case Object(fields) =>
        if |fields| == 0 then LoadRun(g, Some(NoData))
        else AssignFields(g, fields, useNumpy)
  }

  /**
   * The assignments of the loader, from the first table to the flag.  In
   * numpy mode a table that is not a numeric array, null included, makes
   * the stacking raise.
   */
  function AssignFields(g: Globals, fields: map<string, Value>, useNumpy: bool): (run: LoadRun)
  {
    var r := AssignTables(g, fields);
    if r.error.Some? then r else
    var t := TablesOf(fields);
    if useNumpy && (t.None? || !Stackable(t.value)) then LoadRun(r.globals, Some(CannotReshape)) else
    var g7 := if useNumpy then r.globals.(a := Some(StackedMatrix(t.value))) else r.globals;
    if "body_parts" !in fields then LoadRun(g7, Some(MissingKey("body_parts"))) else
    LoadRun(g7.(bodyParts := LabelsOf(fields["body_parts"]), dataInitialized := true), None)
  }

  /** The assignments of the six tables, each preceded by the lookup of its key. */
  function AssignTables(g: Globals, fields: map<string, Value>): (r: LoadRun)
    ensures r.error.None? ==> forall k :: k in TableKeys ==> k in fields
  {
    if "meanwalker" !in fields then LoadRun(g, Some(MissingKey("meanwalker"))) else
    var g1 := g.(meanWalker := TableOf(fields["meanwalker"]));
    if "genderaxis" !in fields then LoadRun(g1, Some(MissingKey("genderaxis"))) else
    var g2 := g1.(genderAxis := TableOf(fields["genderaxis"]));
    if "weightaxis" !in fields then LoadRun(g2, Some(MissingKey("weightaxis"))) else
    var g3 := g2.(weightAxis := TableOf(fields["weightaxis"]));
    if "nervousaxis" !in fields then LoadRun(g3, Some(MissingKey("nervousaxis"))) else
    var g4 := g3.(nervousAxis := TableOf(fields["nervousaxis"]));
    if "happyaxis" !in fields then LoadRun(g4, Some(MissingKey("happyaxis"))) else
    var g5 := g4.(happyAxis := TableOf(fields["happyaxis"]));
    if "customaxis" !in fields then LoadRun(g5, Some(MissingKey("customaxis"))) else
    LoadRun(g5.(customAxis := TableOf(fields["customaxis"])), None)
  }

  /**
   * What the globals keep: A, once assigned, has six columns, and once the
   * flag is set in numpy mode every table is assigned and A is stacked from
   * the very tables the store holds.  In fallback mode the flag promises
   * nothing about the values: a null table is stored as None.
   */
  predicate Consistent(g: Globals, useNumpy: bool) {
    && (g.a.Some? ==> Rectangular(g.a.value, 6))
    && (g.dataInitialized && useNumpy ==>
          && g.Tables().Some? && Stackable(g.Tables().value)
          && g.a == Some(StackedMatrix(g.Tables().value)))
  }

  /** Once the flag is set, the loader returns at once and changes no global. */
  lemma InitializedLoadIsNoOp(g: Globals, doc: Json, useNumpy: bool)
    requires g.dataInitialized
    ensures Load(g, doc, useNumpy) == LoadRun(g, None)
  {
  }

  /**
   * A call that starts uninitialised returns normally exactly when the data
   * is a non-empty object with every field and, in numpy mode, tables numpy
   * can reshape; the flag ends up set exactly then.
   */
  lemma LoadSucceedsIff(g: Globals, doc: Json, useNumpy: bool)
    requires !g.dataInitialized
    ensures Load(g, doc, useNumpy).error.None? <==>
            Complete(doc) && (useNumpy ==> Reshapable(doc))
    ensures Load(g, doc, useNumpy).globals.dataInitialized <==> Load(g, doc, useNumpy).error.None?
  {
    var r := Load(g, doc, useNumpy);
    if Complete(doc) {
      assert "meanwalker" in doc.fields;
      assert |doc.fields| != 0;
    }
  }

  /** A run that returns normally assigns every global from the data and sets the flag. */
  lemma LoadAssignsEveryField(g: Globals, doc: Json, useNumpy: bool)
    requires !g.dataInitialized && Load(g, doc, useNumpy).error.None?
    ensures Complete(doc)
    ensures Load(g, doc, useNumpy).globals ==
            Globals(TableOf(doc.fields["meanwalker"]), TableOf(doc.fields["genderaxis"]),
                    TableOf(doc.fields["weightaxis"]), TableOf(doc.fields["nervousaxis"]),
                    TableOf(doc.fields["happyaxis"]), TableOf(doc.fields["customaxis"]),
                    if useNumpy then Some(StackedMatrix(TablesOf(doc.fields).value)) else g.a,
                    LabelsOf(doc.fields["body_parts"]), true)
  {
    LoadSucceedsIff(g, doc, useNumpy);
  }

  /** A call that raises leaves the flag as it found it. */
  lemma FailedLoadKeepsFlag(g: Globals, doc: Json, useNumpy: bool)
    requires Load(g, doc, useNumpy).error.Some?
    ensures Load(g, doc, useNumpy).globals.dataInitialized == g.dataInitialized
    ensures !g.dataInitialized
  {
    LoadSucceedsIff(g, doc, useNumpy);
  }

  /** Unreadable, non-object or empty data raises before any global is assigned. */
  lemma BadDataAssignsNothing(g: Globals, doc: Json, useNumpy: bool)
    requires !g.dataInitialized
    requires doc.ReadFailure? || doc.Falsy? || doc.NonObject? ||
             (doc.Object? && |doc.fields| == 0)
    ensures Load(g, doc, useNumpy).globals == g
    ensures Load(g, doc, useNumpy).error ==
            Some(if doc.ReadFailure? then FileUnreadable else if doc.NonObject? then NotAnObject else NoData)
  {
  }

  /**
   * A missing table leaves the tables read before it assigned: the first
   * failure after "meanwalker" keeps the new mean walker in the store.
   */
  lemma MissingAxisKeepsMeanWalker(g: Globals, doc: Json, useNumpy: bool)
    requires !g.dataInitialized && doc.Object? && "meanwalker" in doc.fields
    requires "genderaxis" !in doc.fields
    ensures Load(g, doc, useNumpy).error == Some(MissingKey("genderaxis"))
    ensures Load(g, doc, useNumpy).globals == g.(meanWalker := TableOf(doc.fields["meanwalker"]))
  {
    assert |doc.fields| != 0;
  }

  /**
   * A null table is assigned like any other value: in fallback mode the load
   * completes with that table None, while in numpy mode the stacking raises
   * after every table has been assigned.
   */
  lemma NullTableKeptInFallback(g: Globals, doc: Json)
    requires !g.dataInitialized && Complete(doc) && doc.fields["meanwalker"] == Null
    ensures Load(g, doc, false).error.None?
    ensures Load(g, doc, false).globals.dataInitialized && Load(g, doc, false).globals.meanWalker.None?
    ensures Load(g, doc, true).error == Some(CannotReshape)
    ensures Load(g, doc, true).globals.meanWalker.None? && !Load(g, doc, true).globals.dataInitialized
  {
    LoadSucceedsIff(g, doc, false);
    LoadSucceedsIff(g, doc, true);
  }

  /** The first successful load wins: every later call leaves the globals as they are. */
  lemma FirstSuccessWins(g: Globals, first: Json, later: Json, useNumpy: bool)
    requires Load(g, first, useNumpy).error.None?
    ensures Load(Load(g, first, useNumpy).globals, later, useNumpy) ==
            LoadRun(Load(g, first, useNumpy).globals, None)
  {
    if !g.dataInitialized {
      LoadSucceedsIff(g, first, useNumpy);
    }
  }

  /** A failed load does not prevent a later load of valid data from succeeding. */
  lemma RetryAfterFailure(g: Globals, bad: Json, good: Json, useNumpy: bool)
    requires !g.dataInitialized && Load(g, bad, useNumpy).error.Some?
    requires Complete(good) && (useNumpy ==> Reshapable(good))
    ensures Load(Load(g, bad, useNumpy).globals, good, useNumpy).error.None?
    ensures Load(Load(g, bad, useNumpy).globals, good, useNumpy).globals.dataInitialized
  {
    FailedLoadKeepsFlag(g, bad, useNumpy);
    LoadSucceedsIff(Load(g, bad, useNumpy).globals, good, useNumpy);
  }

  /** Every call of the loader keeps the globals consistent. */
  lemma LoadKeepsConsistent(g: Globals, doc: Json, useNumpy: bool)
    requires Consistent(g, useNumpy)
    ensures Consistent(Load(g, doc, useNumpy).globals, useNumpy)
  {
    var r := Load(g, doc, useNumpy);
    if !g.dataInitialized && doc.Object? && (forall k :: k in TableKeys ==> k in doc.fields) {
      var t := TablesOf(doc.fields);
      if useNumpy && t.Some? && Stackable(t.value) {
        StackedShape(t.value);
      }
      if r.globals.dataInitialized && useNumpy {
        LoadAssignsEveryField(g, doc, useNumpy);
        assert r.globals.Tables() == t;
      }
    }
  }

  /** The module globals, updated in place by the loader. */
  class Store {
    /** Whether numpy could be imported; fixed when the module is imported. */
    const useNumpy: bool
    var meanWalker: Option<Vector>
    var genderAxis: Option<Vector>
    var weightAxis: Option<Vector>
    var nervousAxis: Option<Vector>
    var happyAxis: Option<Vector>
    var customAxis: Option<Vector>
    var a: Option<Matrix>
    var bodyParts: Option<seq<string>>
    var dataInitialized: bool

    /** The globals as one value. */
    function State(): (g: Globals)
      reads this
    {
      Globals(meanWalker, genderAxis, weightAxis, nervousAxis, happyAxis, customAxis,
              a, bodyParts, dataInitialized)
    }

    ghost predicate Valid()
      reads this
    {
      Consistent(State(), useNumpy)
    }

    /** The globals as the import leaves them: all None, the flag clear. */
    constructor (useNumpy: bool)
      ensures this.useNumpy == useNumpy && State() == Initial && Valid()
    {
      this.useNumpy := useNumpy;
      meanWalker, genderAxis, weightAxis, nervousAxis, happyAxis, customAxis := None, None, None, None, None, None;
      a, bodyParts, dataInitialized := None, None, false;
    }

    /** `load_data`: returns the error it raised, None when it returned normally. */
    method LoadData(doc: Json) returns (error: Option<LoadError>)
      requires Valid()
      modifies this
      ensures Valid()
      ensures State() == Load(old(State()), doc, useNumpy).globals
      ensures error == Load(old(State()), doc, useNumpy).error
    {
      LoadKeepsConsistent(State(), doc, useNumpy);
      if dataInitialized {
        return None;
      }
      match doc {
        case ReadFailure =>
          return Some(FileUnreadable);
        case Falsy =>
          return Some(NoData);
        case NonObject =>
          return Some(NotAnObject);
        case Object(fields) =>
          if |fields| == 0 {
            return Some(NoData);
          }
          error := ReadTables(fields);
          if error.Some? {
            return;
          }
          if useNumpy {
            var t := State().Tables();
            if t.None? || !Stackable(t.value) {
              return Some(CannotReshape);
            }
            a := Some(StackedMatrix(t.value));
          }
          if "body_parts" !in fields {
            return Some(MissingKey("body_parts"));
          }
          bodyParts := LabelsOf(fields["body_parts"]);
          dataInitialized := true;
      }
    }

    /** The lookups and assignments of the six tables, in the loader's order. */
    method ReadTables(fields: map<string, Value>) returns (error: Option<LoadError>)
      modifies this
      ensures State() == AssignTables(old(State()), fields).globals
      ensures error == AssignTables(old(State()), fields).error
      ensures error.None? ==> State().Tables() == TablesOf(fields)
    {
      if "meanwalker" !in fields { return Some(MissingKey("meanwalker")); }
      meanWalker := TableOf(fields["meanwalker"]);
      if "genderaxis" !in fields { return Some(MissingKey("genderaxis")); }
      genderAxis := TableOf(fields["genderaxis"]);
      if "weightaxis" !in fields { return Some(MissingKey("weightaxis")); }
      weightAxis := TableOf(fields["weightaxis"]);
      if "nervousaxis" !in fields { return Some(MissingKey("nervousaxis")); }
      nervousAxis := TableOf(fields["nervousaxis"]);
      if "happyaxis" !in fields { return Some(MissingKey("happyaxis")); }
      happyAxis := TableOf(fields["happyaxis"]);
      if "customaxis" !in fields { return Some(MissingKey("customaxis")); }
      customAxis := TableOf(fields["customaxis"]);
      return None;
    }
  }
}
