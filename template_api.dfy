/**
 * backend/api.py of the project template: the startup hook that builds the
 * model garden on `app.state` and registers the iris model under "iris_model".
 */
module TemplateApi {
  import opened Wrappers
  import opened Inference
  import opened Loading
  import Model
  import opened Http
  import opened IrisModelMethods

  const IrisKey := "iris_model"
  const IrisPath := "models/tf/iris_model"
  const IrisClasses := ["setosa", "versicolor", "virginica"]

  /** `app.state`: the application's shared state. */
  class AppState {
    var modelGarden: Garden

    constructor ()
      ensures modelGarden == map[]
    {
      modelGarden := map[];
    }
  }

  /**
   * `lifespan` up to its `yield`: a fresh empty garden, then the iris model,
   * inserted only once its constructor has returned; a failed load leaves
   * the garden empty and aborts startup.
   */
  method Lifespan(lib: Library, state: AppState) returns (r: Result<(), Error>)
    modifies state
    ensures r.Success? <==> Loading.Load(lib, Tensorflow, IrisPath).Success?
    ensures r.Failure? ==> r.error == ArtifactNotLoaded(IrisPath) && state.modelGarden == map[]
    ensures r.Success? ==>
      state.modelGarden.Keys == {IrisKey} &&
      fresh(state.modelGarden[IrisKey]) &&
      state.modelGarden[IrisKey].modelPath == IrisPath &&
      state.modelGarden[IrisKey].framework == Tensorflow &&
      state.modelGarden[IrisKey].version == 1 &&
      state.modelGarden[IrisKey].classes == IrisClasses
    ensures AllLoaded(state.modelGarden)
  {
    state.modelGarden := map[];
    var model := Model.New(lib, IrisPath, Tensorflow, 1, IrisClasses);
    match model
    case Failure(e) =>
      r := Failure(e);
    case Success(m) =>
      state.modelGarden := state.modelGarden[IrisKey := m];
      r := Success(());
  }

  /**
   * Once startup has registered only "iris_model", every other name, and a
   * request without a name, is answered 404 without calling any model; the
   * registered name gets the model's labels for the one-row batch.
   */
  lemma AfterStartup(garden: Garden, query: map<string, string>, data: IrisFeatures)
    requires garden.Keys == {IrisKey} && AllLoaded(garden)
    ensures ModelName(query) != Some(IrisKey) ==> Predict(garden, query, data) == Success(NotFound)
    ensures ModelName(query) == Some(IrisKey) ==>
      Predict(garden, query, data) == Respond(garden[IrisKey].Predict(Rows([data.ToList()])))
  {
  }
}
