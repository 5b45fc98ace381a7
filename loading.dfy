/**
 * The framework tag, the error taxonomy and the load dispatch shared by the
 * two `Model` base classes (backend/model.py and backend/models.py hold
 * identical copies of `Framework` and `Model.load`).
 */
module Loading {
  import opened Wrappers
  import opened Inference

  datatype Framework = Tensorflow | Sklearn | Pytorch

  /** The exceptions the repository's own code raises or lets through. */
  datatype Error =
    | UnsupportedFramework(framework: Framework)  // ValueError "Framework ... not supported"
    | ArtifactNotLoaded(path: string)             // the library's loader raised
    | NotImplemented                              // NotImplementedError of the abstract predict
    | IndexOutOfRange(index: int)                 // IndexError from `classes[i]`
    | EmptyArgmax                                 // ValueError from `np.argmax([])`
    | KeyNotFound(key: string)                    // KeyError from `garden[key]`
    | InferenceFailed                             // the library raised inside predict
    | ImageNotDecoded                             // the library could not decode the image
    | NotBytes                                    // an image model was handed something other than bytes

  /** The in-memory model object: what `self.model` holds after loading. */
  datatype Loaded =
    | SklearnModel(est: SklearnEstimator)
    | KerasModel(net: KerasNetwork)

  /** A loaded object came from the loader the framework tag selects. */
  ghost predicate Consistent(framework: Framework, loaded: Loaded)
  {
    match framework
    case Sklearn => loaded.SklearnModel?
    case Tensorflow => loaded.KerasModel?
    case Pytorch => false
  }

  /**
   * `Model.load`: sklearn artifacts go to joblib, tensorflow artifacts to
   * Keras, and every other framework raises ValueError.
   */
  function Load(lib: Library, framework: Framework, path: string): (r: Result<Loaded, Error>)
    ensures r.Success? ==> Consistent(framework, r.value)
    ensures framework == Pytorch ==> r == Failure(UnsupportedFramework(Pytorch))
    ensures framework == Sklearn ==>
      (r.Success? <==> lib.joblibLoad(path).Some?) &&
      (r.Success? ==> r.value == SklearnModel(lib.joblibLoad(path).value)) &&
      (r.Failure? ==> r.error == ArtifactNotLoaded(path))
    ensures framework == Tensorflow ==>
      (r.Success? <==> lib.kerasLoad(path).Some?) &&
      (r.Success? ==> r.value == KerasModel(lib.kerasLoad(path).value)) &&
      (r.Failure? ==> r.error == ArtifactNotLoaded(path))
  {
    if framework == Sklearn then
      match lib.joblibLoad(path)
      case Some(est) => Success(SklearnModel(est))
      case None => Failure(ArtifactNotLoaded(path))
    else if framework == Tensorflow then
      match lib.kerasLoad(path)
      case Some(net) => Success(KerasModel(net))
      case None => Failure(ArtifactNotLoaded(path))
    else
      Failure(UnsupportedFramework(framework))
  }
}
