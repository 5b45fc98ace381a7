/**
 * backend/iris_model_api.py of the project template: a predict handler that
 * always uses the garden entry "iris-model" (the name `IrisModel` of
 * backend/models.py gives itself) and has no not-found branch.
 */
module IrisModelApi {
  import opened Wrappers
  import opened Inference
  import opened Loading
  import Models
  import opened Http
  import opened IrisModelMethods

  const Key := "iris-model"

  /** A garden of backend/models.py models. */
  type ModelsGarden = map<string, Models.Model>

  ghost predicate AllValid(garden: ModelsGarden)
    reads garden.Values
  {
    forall name :: name in garden ==> garden[name].Valid()
  }

  /**
   * `predict`: index the garden at "iris-model" whatever the request holds
   * (KeyError when absent), predict on the one-row batch `[data.to_list()]`
   * and return the dictionaries under "prediction".  The garden is only read.
   */
  method Predict(lib: Library, garden: ModelsGarden, data: IrisFeatures) returns (r: Result<Response, Error>)
    requires AllValid(garden)
    ensures Key !in garden ==> r == Failure(KeyNotFound(Key))
    ensures Key in garden ==>
      (r.Success? <==> garden[Key].Outputs(lib, Rows([data.ToList()])).Success?) &&
      (r.Success? ==> r.value == Response(200, ScoresPrediction(garden[Key].Outputs(lib, Rows([data.ToList()])).value))) &&
      (r.Failure? ==> r.error == garden[Key].Outputs(lib, Rows([data.ToList()])).error)
  {
    if Key !in garden {
      return Failure(KeyNotFound(Key));
    }
    var model := garden[Key];
    var modelInput := data.ToList();
    var predictions := model.Predict(lib, Rows([modelInput]));
    match predictions
    case Success(p) => r := Success(Ok(ScoresPrediction(p)));
    case Failure(e) => r := Failure(e);
  }
}
