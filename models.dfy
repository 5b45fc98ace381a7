/**
 * backend/models.py of the project template: a `Model` base class whose
 * subclasses `IrisModel` and `FlowersModel` fix their own configuration and
 * turn the library's score rows into one class-keyed dictionary per row.
 * Python's subclasses become the `Kind` tag of one class, dispatched on in
 * `Predict` as the interpreter dispatches on the object's class.
 */
module Models {
  import opened Wrappers
  import opened Inference
  import opened Loading

  /** One output dictionary: class label to rounded score. */
  type ClassScores = map<string, real>

  /** Which class of models.py constructed the object. */
  datatype Kind = Base | Iris | Flowers

  const IrisName := "iris-model"
  const IrisClasses := ["setosa", "versicolor", "virginica"]
  const FlowersName := "flowers-model"
  const FlowersPath := "models/flowers-model/tf/model"
  const FlowersClasses := ["daisy", "dandelion", "roses", "sunflowers", "tulips"]
  const FlowersTargetSize := (180, 180)

  ghost predicate Distinct(labels: seq<string>)
  {
    forall i, j :: 0 <= i < j < |labels| ==> labels[i] != labels[j]
  }

  // ---------------------------------------------------------------------
  // Output shaping
  // ---------------------------------------------------------------------

  /**
   * The dictionary comprehension `{classes[j]: round(float(row[j]), 3) for j
   * in range(n)}`, entered in order of j, so a repeated label keeps the
   * score of its last position.
   */
  function RowDict(classes: seq<string>, row: Row, round: real -> real, n: nat): (d: ClassScores)
    requires n <= |row| && n <= |classes|
    ensures |d| <= n
    ensures n > 0 ==> classes[n - 1] in d && d[classes[n - 1]] == round(row[n - 1])
    decreases n
  {
    if n == 0 then map[]
    else RowDict(classes, row, round, n - 1)[classes[n - 1] := round(row[n - 1])]
  }

  /** No position after `j` (and before `n`) carries the label at `j`. */
  ghost predicate LastOf(classes: seq<string>, n: int, j: int)
    requires 0 <= j < n <= |classes|
  {
    forall j' :: j < j' < n ==> classes[j'] != classes[j]
  }

  /** The keys of a row's dictionary are exactly its first `n` labels. */
  lemma {:induction false} RowDictKeys(classes: seq<string>, row: Row, round: real -> real, n: nat)
    requires n <= |row| && n <= |classes|
    ensures forall l :: l in RowDict(classes, row, round, n) <==> l in classes[..n]
  {
    if n > 0 {
      RowDictKeys(classes, row, round, n - 1);
      assert classes[..n] == classes[..n - 1] + [classes[n - 1]];
    }
  }

  /** Each of the first `n` labels maps to the rounded score at its last position. */
  lemma {:induction false} RowDictValues(classes: seq<string>, row: Row, round: real -> real, n: nat)
    requires n <= |row| && n <= |classes|
    ensures forall j :: 0 <= j < n && LastOf(classes, n, j) ==>
      classes[j] in RowDict(classes, row, round, n) &&
      RowDict(classes, row, round, n)[classes[j]] == round(row[j])
  {
    if n > 0 {
      RowDictValues(classes, row, round, n - 1);
      forall j | 0 <= j < n - 1 && LastOf(classes, n, j)
        ensures LastOf(classes, n - 1, j)
      {
      }
    }
  }

  /** With distinct labels every position keeps its own score and no key is lost. */
  lemma {:induction false} RowDictDistinct(classes: seq<string>, row: Row, round: real -> real, n: nat)
    requires n <= |row| && n <= |classes| && Distinct(classes)
    ensures |RowDict(classes, row, round, n)| == n
    ensures forall j :: 0 <= j < n ==>
      classes[j] in RowDict(classes, row, round, n) &&
      RowDict(classes, row, round, n)[classes[j]] == round(row[j])
  {
    RowDictValues(classes, row, round, n);
    if n > 0 {
      RowDictDistinct(classes, row, round, n - 1);
      RowDictKeys(classes, row, round, n - 1);
      assert classes[n - 1] !in classes[..n - 1];
    }
  }

  /**
   * The result of the `for ... outputs.append(...)` loop of both predict
   * methods: one dictionary per row, or IndexError as soon as a row has more
   * scores than there are classes.
   */
  function Labelled(classes: seq<string>, rows: seq<Row>, round: real -> real): (r: Result<seq<ClassScores>, Error>)
    ensures r.Success? <==> forall i :: 0 <= i < |rows| ==> |rows[i]| <= |classes|
    ensures r.Failure? ==> r.error == IndexOutOfRange(|classes|)
    ensures r.Success? ==> |r.value| == |rows|
  {
    if exists i :: 0 <= i < |rows| && |rows[i]| > |classes| then Failure(IndexOutOfRange(|classes|))
    else Success(seq(|rows|, i requires 0 <= i < |rows| && |rows[i]| <= |classes| =>
                             RowDict(classes, rows[i], round, |rows[i]|)))
  }

  /**
   * One dictionary per row, in row order; row i maps `classes[j]` to the
   * rounded `rows[i][j]` for every j, when the labels are distinct.
   */
  lemma LabelledMeaning(classes: seq<string>, rows: seq<Row>, round: real -> real)
    requires Distinct(classes)
    ensures Labelled(classes, rows, round).Success? <==>
      forall i :: 0 <= i < |rows| ==> |rows[i]| <= |classes|
    ensures Labelled(classes, rows, round).Success? ==>
      var out := Labelled(classes, rows, round).value;
      |out| == |rows| &&
      forall i :: 0 <= i < |rows| ==>
        (forall l :: l in out[i] <==> l in classes[..|rows[i]|]) &&
        forall j :: 0 <= j < |rows[i]| ==> classes[j] in out[i] && out[i][classes[j]] == round(rows[i][j])
  {
    if Labelled(classes, rows, round).Success? {
      var out := Labelled(classes, rows, round).value;
      forall i | 0 <= i < |rows|
        ensures forall l :: l in out[i] <==> l in classes[..|rows[i]|]
        ensures forall j :: 0 <= j < |rows[i]| ==> classes[j] in out[i] && out[i][classes[j]] == round(rows[i][j])
      {
        RowDictKeys(classes, rows[i], round, |rows[i]|);
        RowDictDistinct(classes, rows[i], round, |rows[i]|);
      }
    }
  }

  /** The append loop itself. */
  method ShapeRows(classes: seq<string>, rows: seq<Row>, round: real -> real)
    returns (r: Result<seq<ClassScores>, Error>)
    ensures r == Labelled(classes, rows, round)
  {
    var outputs: seq<ClassScores> := [];
    for i := 0 to |rows|
      invariant |outputs| == i
      invariant forall k :: 0 <= k < i ==>
        |rows[k]| <= |classes| && outputs[k] == RowDict(classes, rows[k], round, |rows[k]|)
    {
      if |rows[i]| > |classes| {
        return Failure(IndexOutOfRange(|classes|));
      }
      outputs := outputs + [RowDict(classes, rows[i], round, |rows[i]|)];
    }
    assert !exists k :: 0 <= k < |rows| && |rows[k]| > |classes|;
    assert outputs == Labelled(classes, rows, round).value;
    return Success(outputs);
  }

  // ---------------------------------------------------------------------
  // Image preprocessing of FlowersModel
  // ---------------------------------------------------------------------

  /** `tf.divide(img_tensor, 255.0)` on one image. */
  function Normalize(g: Grid): (r: Grid)
    ensures |r| == |g|
    ensures forall i :: 0 <= i < |g| ==> |r[i]| == |g[i]|
    ensures forall i, j :: 0 <= i < |g| && 0 <= j < |g[i]| ==> |r[i][j]| == |g[i][j]|
    ensures forall i, j, c :: 0 <= i < |g| && 0 <= j < |g[i]| && 0 <= c < |g[i][j]| ==>
      r[i][j][c] * 255.0 == g[i][j][c] &&
      (0.0 <= g[i][j][c] <= 255.0 ==> 0.0 <= r[i][j][c] <= 1.0)
  {
    seq(|g|, i requires 0 <= i < |g| =>
      seq(|g[i]|, j requires 0 <= j < |g[i]| =>
        seq(|g[i][j]|, c requires 0 <= c < |g[i][j]| => g[i][j][c] / 255.0)))
  }

  /**
   * `processing_input`: decode and resize through the library, add the
   * batch dimension, scale to [0,1]; only bytes can be decoded.
   */
  function ProcessingInput(lib: Library, x: Input, targetSize: (int, int)): (r: Result<Input, Error>)
    ensures !x.Bytes? ==> r == Failure(NotBytes)
    ensures x.Bytes? && lib.loadImage(x.bytes, targetSize).None? ==> r == Failure(ImageNotDecoded)
    ensures r.Success? ==>
      x.Bytes? && lib.loadImage(x.bytes, targetSize).Some? &&
      r.value.Images? && |r.value.images| == 1 &&
      r.value.images[0] == Normalize(lib.loadImage(x.bytes, targetSize).value)
  {
    match x
    case Bytes(b) =>
      (match lib.loadImage(b, targetSize)
       case None => Failure(ImageNotDecoded)
       case Some(grid) => Success(Images([Normalize(grid)])))
    case _ => Failure(NotBytes)
  }

  // ---------------------------------------------------------------------
  // Configuration of the subclasses
  // ---------------------------------------------------------------------

  /** The artifact path and version `IrisModel.__init__` picks for a framework. */
  function IrisArtifact(framework: Framework): (r: Result<(string, int), Error>)
    ensures framework == Tensorflow ==> r == Success(("models/iris-model/tf/model", 1))
    ensures framework == Sklearn ==> r == Success(("models/iris-model/sklearn/model.pk", 1))
    ensures framework == Pytorch ==> r == Failure(UnsupportedFramework(Pytorch))
  {
    if framework == Tensorflow then Success(("models/iris-model/tf/model", 1))
    else if framework == Sklearn then Success(("models/iris-model/sklearn/model.pk", 1))
    else Failure(UnsupportedFramework(framework))
  }

  /** The two fixed class lists have no repeated label, so no score is overwritten. */
  lemma FixedClassesDistinct()
    ensures Distinct(IrisClasses) && |IrisClasses| == 3
    ensures Distinct(FlowersClasses) && |FlowersClasses| == 5
  {
  }

  // ---------------------------------------------------------------------
  // The model object
  // ---------------------------------------------------------------------

  class Model {
    var modelName: string
    var modelPath: string
    var framework: Framework
    var version: int
    var classes: seq<string>
    var model: Option<Loaded>
    var kind: Kind
    var targetSize: Option<(int, int)>   // only FlowersModel sets `self.target_size`

    /** Loading succeeded with the loader the framework selects. */
    ghost predicate IsLoaded()
      reads this
    {
      model.Some? && Consistent(framework, model.value)
    }

    /** A fully constructed object of its class. */
    ghost predicate Valid()
      reads this
    {
      IsLoaded() &&
      (kind == Flowers ==> framework == Tensorflow && targetSize.Some?)
    }

    /** The attribute assignments of `Model.__init__`, before `self.load()`. */
    constructor (kind: Kind, modelName: string, modelPath: string, framework: Framework,
                 version: int, classes: seq<string>)
      ensures this.kind == kind && this.modelName == modelName && this.modelPath == modelPath
      ensures this.framework == framework && this.version == version && this.classes == classes
      ensures model == None && targetSize == None
    {
      this.kind := kind;
      this.modelName := modelName;
      this.modelPath := modelPath;
      this.framework := framework;
      this.version := version;
      this.classes := classes;
      this.model := None;
      this.targetSize := None;
    }

    /** `load`: sets `self.model` from the framework's loader, or raises and leaves it alone. */
    method Load(lib: Library) returns (r: Result<(), Error>)
      modifies this
      ensures unchanged(this`kind) && unchanged(this`modelName) && unchanged(this`modelPath)
      ensures unchanged(this`framework) && unchanged(this`version) && unchanged(this`classes)
      ensures unchanged(this`targetSize)
      ensures r.Success? <==> Loading.Load(lib, framework, modelPath).Success?
      ensures r.Success? ==> model == Some(Loading.Load(lib, framework, modelPath).value) && IsLoaded()
      ensures r.Failure? ==> r.error == Loading.Load(lib, framework, modelPath).error && model == old(model)
    {
      match Loading.Load(lib, framework, modelPath)
      case Success(loaded) =>
        model := Some(loaded);
        r := Success(());
      case Failure(e) =>
        r := Failure(e);
    }

    /**
     * The score rows `predict` shapes: `predict_proba` (sklearn) or `predict`
     * (tensorflow) for IrisModel, softmax of the network's scores on the
     * preprocessed image for FlowersModel; the base class raises.
     */
    function Scores(lib: Library, x: Input): (s: Result<seq<Row>, Error>)
      reads this
      requires Valid()
      ensures kind == Base ==> s == Failure(NotImplemented)
      ensures kind == Iris && framework == Sklearn ==>
        s == (match model.value.est.predictProba(x) case Some(p) => Success(p) case None => Failure(InferenceFailed))
      ensures kind == Iris && framework == Tensorflow ==>
        s == (match model.value.net.predict(x) case Some(p) => Success(p) case None => Failure(InferenceFailed))
      ensures kind == Flowers && s.Success? ==>
        var t := ProcessingInput(lib, x, targetSize.value);
        t.Success? && model.value.net.predict(t.value).Some? &&
        s.value == lib.softmax(model.value.net.predict(t.value).value)
      ensures kind == Flowers && s.Failure? ==>
        ProcessingInput(lib, x, targetSize.value).Failure? ||
        model.value.net.predict(ProcessingInput(lib, x, targetSize.value).value).None?
    {
      match kind
      case Base => Failure(NotImplemented)
      case Iris =>
        if framework == Sklearn then
          (match model.value.est.predictProba(x)
           case Some(p) => Success(p)
           case None => Failure(InferenceFailed))
        else if framework == Tensorflow then
          (match model.value.net.predict(x)
           case Some(p) => Success(p)
           case None => Failure(InferenceFailed))
        else Success([])
      case Flowers =>
        match ProcessingInput(lib, x, targetSize.value)
        case Failure(e) => Failure(e)
        case Success(t) =>
          match model.value.net.predict(t)
          case None => Failure(InferenceFailed)
          case Some(scores) => Success(lib.softmax(scores))
    }

    /** What `predict` returns: the rows of `Scores`, each shaped into a class-keyed dictionary. */
    function Outputs(lib: Library, x: Input): (r: Result<seq<ClassScores>, Error>)
      reads this
      requires Valid()
      ensures kind == Base ==> r == Failure(NotImplemented)
      ensures Scores(lib, x).Failure? ==> r == Failure(Scores(lib, x).error)
      ensures r.Success? ==> Scores(lib, x).Success? && |r.value| == |Scores(lib, x).value|
    {
      match Scores(lib, x)
      case Failure(e) => Failure(e)
      case Success(rows) => Labelled(classes, rows, lib.round3)
    }

    /** `predict` of whichever class built the object. */
    method Predict(lib: Library, x: Input) returns (r: Result<seq<ClassScores>, Error>)
      requires Valid()
      ensures r == Outputs(lib, x)
      ensures r.Success? ==> |r.value| == |Scores(lib, x).value|
    {
      match Scores(lib, x)
      case Failure(e) =>
        r := Failure(e);
      case Success(rows) =>
        r := ShapeRows(classes, rows, lib.round3);
    }

    /** `__call__`: calling a model is calling its `predict`. */
    method Call(lib: Library, x: Input) returns (r: Result<seq<ClassScores>, Error>)
      requires Valid()
      ensures r == Outputs(lib, x)
    {
      r := Predict(lib, x);
    }
  }

  /**
   * For a model built with distinct labels (both subclasses are), a
   * successful prediction has one dictionary per score row, in order, and row
   * i maps `classes[j]` to the rounded `rows[i][j]`.
   */
  lemma OutputsKeyedByClass(m: Model, lib: Library, x: Input)
    requires m.Valid() && Distinct(m.classes)
    ensures m.Outputs(lib, x).Success? ==>
      var rows := m.Scores(lib, x).value;
      var out := m.Outputs(lib, x).value;
      |out| == |rows| &&
      forall i, j :: 0 <= i < |rows| && 0 <= j < |rows[i]| ==>
        j < |m.classes| && m.classes[j] in out[i] && out[i][m.classes[j]] == lib.round3(rows[i][j])
    ensures m.Scores(lib, x).Success? ==>
      (m.Outputs(lib, x).Success? <==>
       forall i :: 0 <= i < |m.Scores(lib, x).value| ==> |m.Scores(lib, x).value[i]| <= |m.classes|)
  {
    if m.Scores(lib, x).Success? {
      LabelledMeaning(m.classes, m.Scores(lib, x).value, lib.round3);
    }
  }

  // ---------------------------------------------------------------------
  // Construction
  // ---------------------------------------------------------------------

  /** `Model.__init__` of a `kind` object: assign, then load; a failed load raises. */
  method New(lib: Library, kind: Kind, modelName: string, modelPath: string, framework: Framework,
             version: int, classes: seq<string>)
    returns (r: Result<Model, Error>)
    ensures r.Success? <==> Loading.Load(lib, framework, modelPath).Success?
    ensures r.Failure? ==> r.error == Loading.Load(lib, framework, modelPath).error
    ensures r.Success? ==>
      fresh(r.value) && r.value.IsLoaded() && r.value.kind == kind &&
      r.value.modelName == modelName && r.value.modelPath == modelPath &&
      r.value.framework == framework && r.value.version == version &&
      r.value.classes == classes && r.value.targetSize == None
  {
    var m := new Model(kind, modelName, modelPath, framework, version, classes);
    var loaded := m.Load(lib);
    match loaded
    case Success(_) => r := Success(m);
    case Failure(e) => r := Failure(e);
  }

  /** `IrisModel(framework)`, tensorflow by default. */
  method NewIrisModel(lib: Library, framework: Framework := Tensorflow) returns (r: Result<Model, Error>)
    ensures framework == Pytorch ==> r == Failure(UnsupportedFramework(Pytorch))
    ensures framework != Pytorch ==>
      (r.Success? <==> Loading.Load(lib, framework, IrisArtifact(framework).value.0).Success?)
    ensures r.Success? ==>
      fresh(r.value) && r.value.Valid() && r.value.kind == Iris &&
      r.value.modelName == IrisName && r.value.framework == framework &&
      r.value.modelPath == IrisArtifact(framework).value.0 && r.value.version == 1 &&
      r.value.classes == IrisClasses
  {
    match IrisArtifact(framework)
    case Failure(e) =>
      r := Failure(e);
    case Success(artifact) =>
      r := New(lib, Iris, IrisName, artifact.0, framework, artifact.1, IrisClasses);
  }

  /** `FlowersModel()`: fixed name, path, framework, version, classes and target size. */
  method NewFlowersModel(lib: Library) returns (r: Result<Model, Error>)
    ensures r.Success? <==> lib.kerasLoad(FlowersPath).Some?
    ensures r.Failure? ==> r.error == ArtifactNotLoaded(FlowersPath)
    ensures r.Success? ==>
      fresh(r.value) && r.value.Valid() && r.value.kind == Flowers &&
      r.value.modelName == FlowersName && r.value.framework == Tensorflow &&
      r.value.modelPath == FlowersPath && r.value.version == 1 &&
      r.value.classes == FlowersClasses && r.value.targetSize == Some(FlowersTargetSize)
  {
    r := New(lib, Flowers, FlowersName, FlowersPath, Tensorflow, 1, FlowersClasses);
    if r.Success? {
      r.value.targetSize := Some(FlowersTargetSize);
    }
  }
}
