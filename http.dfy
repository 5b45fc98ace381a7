/** The JSON responses the predict handlers build (`JSONResponse`, status 200 unless given). */
module Http {
  import Model
  import Models

  datatype Body =
    | Message(message: string)
    | LabelPrediction(labels: Model.Prediction)                // {"prediction": ...} from model.py
    | ScoresPrediction(scores: seq<Models.ClassScores>)        // {"prediction": ...} from models.py

  datatype Response = Response(status: int, body: Body)

  /** `JSONResponse(status_code=404, content={"message": "Model not found"})` */
  const NotFound := Response(404, Message("Model not found"))

  /** `JSONResponse(content=...)` */
  function Ok(body: Body): Response
  {
    Response(200, body)
  }
}
