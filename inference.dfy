/**
 * The foreign collaborators of the model garden: the ML libraries that load
 * artifacts and run inference, and Python's `round`.  Nothing here is
 * interpreted: every library call is an arrow value supplied by the caller,
 * and a `None` result stands for the library raising an exception.
 * No numeric property (probabilities in [0,1], softmax summing to 1) is assumed.
 */
module Inference {
  import opened Wrappers

  type Byte = bv8

  /** One row of scores, probabilities or features. */
  type Row = seq<real>

  /** A decoded image as a height x width x channels array of intensities. */
  type Grid = seq<seq<seq<real>>>

  /** Whatever a caller hands to a model's `predict`. */
  datatype Input =
    | Rows(rows: seq<Row>)          // a batch of feature vectors
    | Images(images: seq<Grid>)     // a batch of decoded images
    | Bytes(bytes: seq<Byte>)       // an undecoded image file

  /** A scikit-learn estimator as returned by `joblib.load`. */
  datatype SklearnEstimator = SklearnEstimator(
    predict: Input -> Option<seq<int>>,        // `predict(X).tolist()`: one class index per row
    predictProba: Input -> Option<seq<Row>>)   // `predict_proba(X)`: one probability row per input row

  /** A Keras network as returned by `tf.keras.models.load_model`. */
  datatype KerasNetwork = KerasNetwork(
    predict: Input -> Option<seq<Row>>)        // `predict(X)`: one score row per input row

  /** The library entry points the repository calls. */
  datatype Library = Library(
    joblibLoad: string -> Option<SklearnEstimator>,
    kerasLoad: string -> Option<KerasNetwork>,
    loadImage: (seq<Byte>, (int, int)) -> Option<Grid>,  // `load_img(..., target_size)` + `img_to_array`
    softmax: seq<Row> -> seq<Row>,                       // `tf.nn.softmax` over the class axis
    round3: real -> real)                                // `round(float(x), 3)`
}
