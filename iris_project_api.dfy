/**
 * backend/api.py of the iris project: a module-level model garden filled by
 * the startup hook with the iris model under "iris", and a predict handler
 * that looks models up by the `model_name` query parameter.
 */
module IrisProjectApi {
  import opened Wrappers
  import opened Inference
  import opened Loading
  import Model
  import opened Http
  import opened IrisModelMethods

  const IrisKey := "iris"
  const IrisPath := "models/tf/iris_model"
  const IrisClasses := ["setosa", "versicolor", "virginica"]

  /** The module's global state. */
  class Server {
    var modelGarden: Garden

    ghost predicate Valid()
      reads this, modelGarden.Values
    {
      AllLoaded(modelGarden)
    }

    /** `model_garden = {}` when the module is imported. */
    constructor ()
      ensures modelGarden == map[] && Valid()
    {
      modelGarden := map[];
    }

    /**
     * `lifespan` up to its `yield`: assigns a freshly loaded tensorflow iris
     * model to `model_garden["iris"]`; if loading raises, nothing is stored.
     */
    method Lifespan(lib: Library) returns (r: Result<(), Error>)
      requires Valid()
      modifies this
      ensures Valid()
      ensures r.Success? <==> Loading.Load(lib, Tensorflow, IrisPath).Success?
      ensures r.Failure? ==> r.error == ArtifactNotLoaded(IrisPath) && modelGarden == old(modelGarden)
      ensures r.Success? ==>
        IrisKey in modelGarden &&
        modelGarden == old(modelGarden)[IrisKey := modelGarden[IrisKey]] &&
        fresh(modelGarden[IrisKey]) &&
        modelGarden[IrisKey].modelPath == IrisPath &&
        modelGarden[IrisKey].framework == Tensorflow &&
        modelGarden[IrisKey].version == 1 &&
        modelGarden[IrisKey].classes == IrisClasses
    {
      var model := Model.New(lib, IrisPath, Tensorflow, 1, IrisClasses);
      match model
      case Failure(e) =>
        r := Failure(e);
      case Success(m) =>
        modelGarden := modelGarden[IrisKey := m];
        r := Success(());
    }

    /**
     * `predict`: the same lookup as backend/iris_model_methods.py, on the
     * module-level garden.  Once the garden holds only "iris", every other
     * name, or none, is answered 404.
     */
    function Predict(query: map<string, string>, data: IrisFeatures): (r: Result<Response, Error>)
      reads this, modelGarden.Values
      requires Valid()
      ensures modelGarden.Keys <= {IrisKey} && ModelName(query) != Some(IrisKey) ==> r == Success(NotFound)
      ensures ModelName(query) == Some(IrisKey) && IrisKey in modelGarden ==>
        r == Respond(modelGarden[IrisKey].Predict(Rows([data.ToList()])))
    {
      IrisModelMethods.Predict(modelGarden, query, data)
    }
  }

  /** Startup on a fresh module leaves exactly one entry, "iris". */
  method Startup(lib: Library) returns (server: Server, r: Result<(), Error>)
    ensures server.Valid()
    ensures r.Success? ==> server.modelGarden.Keys == {IrisKey}
    ensures r.Failure? ==> server.modelGarden == map[]
  {
    server := new Server();
    r := server.Lifespan(lib);
  }
}
