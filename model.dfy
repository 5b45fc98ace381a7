/**
 * backend/model.py of the project template: a `Model` that loads one artifact
 * at construction and maps the library's raw predictions to class labels.
 */
module Model {
  import opened Wrappers
  import opened Inference
  import opened Loading

  /** What `Model.predict` returns: the raw list, or labels when classes are set. */
  datatype Prediction =
    | Indices(indices: seq<int>)   // sklearn `predict(X).tolist()`, unchanged
    | Scores(scores: seq<Row>)     // Keras `predict(X).tolist()`, unchanged
    | Labels(labels: seq<string>)  // one class label per input row

  function Length(p: Prediction): nat
  {
    match p
    case Indices(s) => |s|
    case Scores(s) => |s|
    case Labels(s) => |s|
  }

  // ---------------------------------------------------------------------
  // Python list indexing and the label maps of `predict`
  // ---------------------------------------------------------------------

  /** `i` is a valid Python index into a list of length `n` (negative ones count from the end). */
  predicate PyIndexable(n: nat, i: int)
  {
    -(n as int) <= i < n
  }

  /** The element `xs[i]` denotes in Python. */
  function PyIndex<T>(xs: seq<T>, i: int): (x: T)
    requires PyIndexable(|xs|, i)
    ensures x in xs
    ensures 0 <= i ==> x == xs[i]
    ensures i < 0 ==> x == xs[|xs| + i]
  {
    if i >= 0 then xs[i] else xs[|xs| + i]
  }

  /**
   * `[classes[i] for i in indices]`: raises IndexError at the first index
   * that does not address `classes`.
   */
  function LabelsOfIndices(classes: seq<string>, indices: seq<int>): (r: Result<seq<string>, Error>)
    ensures r.Success? <==> forall k :: 0 <= k < |indices| ==> PyIndexable(|classes|, indices[k])
    ensures r.Success? ==>
      |r.value| == |indices| &&
      forall k :: 0 <= k < |indices| ==> r.value[k] == PyIndex(classes, indices[k])
    ensures r.Failure? ==>
      exists k :: 0 <= k < |indices| && !PyIndexable(|classes|, indices[k]) &&
        r.error == IndexOutOfRange(indices[k]) &&
        forall k' :: 0 <= k' < k ==> PyIndexable(|classes|, indices[k'])
  {
    if indices == [] then Success([])
    else if !PyIndexable(|classes|, indices[0]) then Failure(IndexOutOfRange(indices[0]))
    else
      match LabelsOfIndices(classes, indices[1..])
      case Failure(e) =>
        assert forall k' :: 1 <= k' < |indices| ==> indices[k'] == indices[1..][k' - 1];
        Failure(e)
      case Success(rest) => Success([PyIndex(classes, indices[0])] + rest)
  }

  /** `k` is where `np.argmax(row)` lands: the first position of the largest score. */
  ghost predicate IsFirstMax(row: Row, k: int)
  {
    0 <= k < |row| &&
    (forall j :: 0 <= j < |row| ==> row[j] <= row[k]) &&
    (forall j :: 0 <= j < k ==> row[j] < row[k])
  }

  /** `np.argmax` of a non-empty row. */
  function ArgMax(row: Row): (k: nat)
    requires |row| > 0
    ensures IsFirstMax(row, k)
  {
    if |row| == 1 then 0
    else
      var k := ArgMax(row[..|row| - 1]);
      assert forall j :: 0 <= j < |row| - 1 ==> row[j] == row[..|row| - 1][j];
      if row[|row| - 1] > row[k] then |row| - 1 else k
  }

  /** The position of a row's first maximum is unique, so `ArgMax` is the only answer. */
  lemma FirstMaxUnique(row: Row, k: int, k': int)
    requires IsFirstMax(row, k) && IsFirstMax(row, k')
    ensures k == k'
  {
    // both are maxima, so neither score is strictly below the other
    assert row[k] == row[k'];
  }

  /**
   * `[classes[np.argmax(pred)] for pred in predictions]`: an empty row raises
   * ValueError and a maximum past the last class raises IndexError, at the
   * first row where either happens.
   */
  function LabelsOfScores(classes: seq<string>, rows: seq<Row>): (r: Result<seq<string>, Error>)
    ensures r.Success? <==>
      forall k :: 0 <= k < |rows| ==> |rows[k]| > 0 && ArgMax(rows[k]) < |classes|
    ensures r.Success? ==>
      |r.value| == |rows| &&
      forall k :: 0 <= k < |rows| ==> IsFirstMax(rows[k], ArgMax(rows[k])) && r.value[k] == classes[ArgMax(rows[k])]
  {
    if rows == [] then Success([])
    else if |rows[0]| == 0 then Failure(EmptyArgmax)
    else if ArgMax(rows[0]) >= |classes| then Failure(IndexOutOfRange(ArgMax(rows[0])))
    else
      match LabelsOfScores(classes, rows[1..])
      case Failure(e) =>
        assert forall k' :: 1 <= k' < |rows| ==> rows[k'] == rows[1..][k' - 1];
        Failure(e)
      case Success(rest) => Success([classes[ArgMax(rows[0])]] + rest)
  }

  // ---------------------------------------------------------------------
  // The model object
  // ---------------------------------------------------------------------

  class Model {
    var modelPath: string
    var framework: Framework
    var version: int
    var classes: seq<string>
    var model: Option<Loaded>

    /** A constructed model: loading succeeded with the loader its framework selects. */
    ghost predicate Valid()
      reads this
    {
      model.Some? && Consistent(framework, model.value)
    }

    /** The attribute assignments of `__init__`, before `self.load()`. */
    constructor (modelPath: string, framework: Framework, version: int, classes: seq<string>)
      ensures this.modelPath == modelPath && this.framework == framework
      ensures this.version == version && this.classes == classes
      ensures model == None
    {
      this.modelPath := modelPath;
      this.framework := framework;
      this.version := version;
      this.classes := classes;
      this.model := None;
    }

    /** `load`: sets `self.model` from the framework's loader, or raises and leaves it alone. */
    method Load(lib: Library) returns (r: Result<(), Error>)
      modifies this
      ensures unchanged(this`modelPath) && unchanged(this`framework)
      ensures unchanged(this`version) && unchanged(this`classes)
      ensures r.Success? <==> Loading.Load(lib, framework, modelPath).Success?
      ensures r.Success? ==> model == Some(Loading.Load(lib, framework, modelPath).value) && Valid()
      ensures r.Failure? ==> r.error == Loading.Load(lib, framework, modelPath).error && model == old(model)
    {
      match Loading.Load(lib, framework, modelPath)
      case Success(loaded) =>
        model := Some(loaded);
        r := Success(());
      case Failure(e) =>
        r := Failure(e);
    }

    /** `self.model.predict(X).tolist()`, shaped by the framework. */
    function RawPrediction(x: Input): (p: Option<Prediction>)
      reads this
      requires Valid()
      ensures framework == Sklearn ==>
        p == (match model.value.est.predict(x) case Some(s) => Some(Indices(s)) case None => None)
      ensures framework == Tensorflow ==>
        p == (match model.value.net.predict(x) case Some(s) => Some(Scores(s)) case None => None)
    {
      if framework == Sklearn then
        match model.value.est.predict(x)
        case Some(s) => Some(Indices(s))
        case None => None
      else
        match model.value.net.predict(x)
        case Some(s) => Some(Scores(s))
        case None => None
    }

    /**
     * `predict`: the raw list when there are no classes; otherwise one label
     * per row, by class index (sklearn) or by largest score (tensorflow).
     */
    function Predict(x: Input): (r: Result<Prediction, Error>)
      reads this
      requires Valid()
      ensures RawPrediction(x).None? ==> r == Failure(InferenceFailed)
      ensures RawPrediction(x).Some? && classes == [] ==> r == Success(RawPrediction(x).value)
      ensures RawPrediction(x).Some? && classes != [] && framework == Sklearn ==>
        r == (match LabelsOfIndices(classes, RawPrediction(x).value.indices)
              case Success(l) => Success(Labels(l)) case Failure(e) => Failure(e))
      ensures RawPrediction(x).Some? && classes != [] && framework == Tensorflow ==>
        r == (match LabelsOfScores(classes, RawPrediction(x).value.scores)
              case Success(l) => Success(Labels(l)) case Failure(e) => Failure(e))
      ensures r.Success? ==> Length(r.value) == Length(RawPrediction(x).value)
      ensures r.Success? && classes != [] ==>
        r.value.Labels? && forall k :: 0 <= k < |r.value.labels| ==> r.value.labels[k] in classes
    {
      match RawPrediction(x)
      case None => Failure(InferenceFailed)
      case Some(raw) =>
        if classes == [] then Success(raw)
        else if framework == Sklearn then
          match LabelsOfIndices(classes, raw.indices)
          case Success(l) => Success(Labels(l))
          case Failure(e) => Failure(e)
        else
          match LabelsOfScores(classes, raw.scores)
          case Success(l) => Success(Labels(l))
          case Failure(e) => Failure(e)
    }
  }

  /**
   * `Model(...)` as a whole: assign the attributes, then load; a failed load
   * raises out of the constructor, so no model is returned.
   */
  method New(lib: Library, modelPath: string, framework: Framework, version: int, classes: seq<string>)
    returns (r: Result<Model, Error>)
    ensures r.Success? <==> Loading.Load(lib, framework, modelPath).Success?
    ensures r.Failure? ==> r.error == Loading.Load(lib, framework, modelPath).error
    ensures r.Success? ==>
      fresh(r.value) && r.value.Valid() &&
      r.value.modelPath == modelPath && r.value.framework == framework &&
      r.value.version == version && r.value.classes == classes
  {
    var m := new Model(modelPath, framework, version, classes);
    var loaded := m.Load(lib);
    match loaded
    case Success(_) => r := Success(m);
    case Failure(e) => r := Failure(e);
  }
}
