/**
 * backend/iris_model_methods.py of the project template: the request schema
 * and the predict handler that looks a model up by the `model_name` query
 * parameter and answers 404 when the garden has no such model.
 */
module IrisModelMethods {
  import opened Wrappers
  import opened Inference
  import opened Loading
  import Model
  import opened Http

  /** The request body: the four iris measurements. */
  datatype IrisFeatures = IrisFeatures(sepalLength: real, sepalWidth: real, petalLength: real, petalWidth: real)
  {
    /** `to_list`: the feature vector, sepal before petal, length before width. */
    function ToList(): (r: Row)
      ensures |r| == 4
      ensures r[0] == sepalLength && r[1] == sepalWidth
      ensures r[2] == petalLength && r[3] == petalWidth
    {
      [sepalLength, sepalWidth, petalLength, petalWidth]
    }
  }

  /** No two requests share a feature vector: `to_list` keeps every measurement. */
  lemma ToListInjective(a: IrisFeatures, b: IrisFeatures)
    ensures a.ToList() == b.ToList() <==> a == b
  {
  }

  /** The model garden: model name to loaded model. */
  type Garden = map<string, Model.Model>

  /** Every entry of the garden was constructed, hence loaded. */
  ghost predicate AllLoaded(garden: Garden)
    reads garden.Values
  {
    forall name :: name in garden ==> garden[name].Valid()
  }

  /** `dict(request.query_params).get("model_name")`. */
  function ModelName(query: map<string, string>): (name: Option<string>)
    ensures name.Some? <==> "model_name" in query
    ensures name.Some? ==> name.value == query["model_name"]
  {
    if "model_name" in query then Some(query["model_name"]) else None
  }

  /** `model_garden.get(model_name, None)`: a missing name never finds a model. */
  function Get(garden: Garden, name: Option<string>): (m: Option<Model.Model>)
    ensures m.Some? <==> name.Some? && name.value in garden
    ensures m.Some? ==> m.value == garden[name.value]
  {
    match name
    case None => None
    case Some(n) => if n in garden then Some(garden[n]) else None
  }

  /** `{"prediction": prediction}` for a successful model call; exceptions propagate. */
  function Respond(p: Result<Model.Prediction, Error>): (r: Result<Response, Error>)
    ensures p.Success? <==> r.Success?
    ensures r.Success? ==> r.value == Response(200, LabelPrediction(p.value))
    ensures r.Failure? ==> r.error == p.error
  {
    match p
    case Success(v) => Success(Ok(LabelPrediction(v)))
    case Failure(e) => Failure(e)
  }

  /**
   * `predict`: 404 "Model not found" when the named model is absent (also
   * when no name is given); otherwise the model's prediction on the one-row
   * batch `[data.to_list()]`, returned unchanged under "prediction".
   */
  function Predict(garden: Garden, query: map<string, string>, data: IrisFeatures): (r: Result<Response, Error>)
    reads garden.Values
    requires AllLoaded(garden)
    ensures Get(garden, ModelName(query)).None? ==> r == Success(NotFound)
    ensures "model_name" !in query ==> r == Success(NotFound)
    ensures "model_name" in query && query["model_name"] !in garden ==> r == Success(NotFound)
    ensures "model_name" in query && query["model_name"] in garden ==>
      r == Respond(garden[query["model_name"]].Predict(Rows([data.ToList()])))
    ensures r.Success? && r.value.status != 404 ==>
      r.value.status == 200 && r.value.body.LabelPrediction?
  {
    match Get(garden, ModelName(query))
    case None => Success(NotFound)
    case Some(m) => Respond(m.Predict(Rows([data.ToList()])))
  }
}
