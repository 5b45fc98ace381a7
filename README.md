# Model garden

A Dafny model of the "model garden" of the FullStack-AI-24 demo backends: the
name-keyed registry of loaded classifiers that the FastAPI servers fill at
startup, the `Model` classes that load an artifact according to their
framework tag (tensorflow, sklearn, pytorch), the shaping of the ML library's
raw output into class labels or class-keyed score dictionaries, and the
predict handlers that look a model up and call it on a one-row batch.

The ML libraries (joblib, Keras, `tf.nn.softmax`, `load_img`) and Python's
`round` are not modelled: they are arrow values in the `Inference.Library`
and estimator datatypes, supplied by the caller, and a `None` from them
stands for the library raising. Nothing is assumed about what they return.
Scores are `real`s.

Modules, one per source file:

- `Wrappers`: `Option` and `Result`.
- `Inference`: the foreign collaborators (estimators, loaders, image
  loading, softmax, rounding) and the inputs handed to `predict`.
- `Loading`: the framework tag, the error taxonomy and `Model.load`, which
  backend/model.py and backend/models.py both define identically.
- `Model`: code/project-template/backend/model.py.
- `Models`: code/project-template/backend/models.py. Python's subclasses
  `IrisModel` and `FlowersModel` become a `Kind` tag on one class, and
  `Predict` dispatches on it. Constructors that can raise become methods
  returning `Result`.
- `Http`: the JSON responses the handlers build.
- `IrisModelMethods`: code/project-template/backend/iris_model_methods.py.
  Its request schema `IrisFeatures` and its lookup-and-predict handler are
  shared by the other two handlers, whose source files hold identical copies
  of `to_list` (iris_model_api.py:13-14, iris-project/backend/api.py:79-80).
- `TemplateApi`: code/project-template/backend/api.py.
- `IrisModelApi`: code/project-template/backend/iris_model_api.py. The
  garden holds backend/models.py models here, because "iris-model" is the
  name `IrisModel` gives itself there.
- `IrisProjectApi`: code/iris-project/backend/api.py. That file imports
  `Model` from its own directory, and code/iris-project/backend/model.py is
  not part of this model; the module uses the project template's
  backend/model.py (module `Model`) in its place, whose `__init__` takes the
  arguments the call at api.py:19-24 passes.

## Behaviour of the source worth noting

- A failed load at startup raises out of `lifespan`, and nothing is stored in
  the garden (code/project-template/backend/api.py:15-21).
- backend/model.py returns class labels, or the raw prediction list when no
  classes are given.
- No probability bound and no softmax sum is assumed of the library.

## Model

| member | source | states |
|---|---|---|
| `Loading.Load` | code/project-template/backend/models.py:30-53 | sklearn loads through joblib and tensorflow through Keras; the loaded object always matches its tag; pytorch raises ValueError; a loader failure raises naming the path |
| `Model.PyIndex` | code/project-template/backend/model.py:60 | Python indexing of the class list, negative indices counting from the end; the element is always a class |
| `Model.LabelsOfIndices` | code/project-template/backend/model.py:59-60 | succeeds iff every predicted index addresses the class list; then one label per index, in order, each `classes[i]`; otherwise IndexError at the first bad index |
| `Model.ArgMax` | code/project-template/backend/model.py:62 | the position of a row's first largest score |
| `Model.FirstMaxUnique` | code/project-template/backend/model.py:62 | the first-maximum position is unique, so `ArgMax` is the only answer |
| `Model.LabelsOfScores` | code/project-template/backend/model.py:61-62 | succeeds iff every row is non-empty and its argmax addresses a class; then one label per row, in order: the class at that row's largest score |
| `Model.Model.constructor` | code/project-template/backend/model.py:12-22 | stores path, framework, version and classes; no model loaded yet |
| `Model.Model.Load` | code/project-template/backend/model.py:26-49 | sets `model` to what the framework's loader returned, or fails with its error leaving `model` alone; other fields unchanged |
| `Model.Model.RawPrediction` | code/project-template/backend/model.py:56-57 | the library's prediction: class indices for sklearn, score rows for tensorflow |
| `Model.Model.Predict` | code/project-template/backend/model.py:52-63 | the raw list unchanged when there are no classes; otherwise index-to-label (sklearn) or argmax-to-label (tensorflow); same length as the raw list; with classes every label is a class; library failure propagates |
| `Model.New` | code/project-template/backend/model.py:12-24 | construction succeeds iff loading does, returning a fresh loaded model with the given fields; otherwise the load error |
| `Models.RowDictKeys` | code/project-template/backend/models.py:89 | a row's dictionary has exactly the first len(row) class labels as keys |
| `Models.RowDictValues` | code/project-template/backend/models.py:89 | each label maps to the rounded score at its last position in the row |
| `Models.RowDictDistinct` | code/project-template/backend/models.py:89 | with distinct labels, the dictionary has len(row) entries and `classes[j]` maps to `round(row[j])` for every j |
| `Models.RowDict` | code/project-template/backend/models.py:89 | the dictionary comprehension, entered in class order: at most one entry per position, and the last position's label holds the last rounded score (a later key overwrites) |
| `Models.Labelled` | code/project-template/backend/models.py:85-95 | the result of the append loop: succeeds iff no row is longer than the class list, then one dictionary per row; otherwise IndexError at `len(classes)` |
| `Models.Model.Outputs` | code/project-template/backend/models.py:81-137 | what `predict` returns: the base class raises NotImplementedError, a library or decode failure propagates, and a success has one dictionary per score row |
| `Models.LabelledMeaning` | code/project-template/backend/models.py:85-95 | shaping succeeds iff no row is longer than the class list; then one dictionary per row, in order, keyed by the row's labels with the rounded scores |
| `Models.ShapeRows` | code/project-template/backend/models.py:134-137 | the append loop computes exactly the shaped rows, or IndexError for a row longer than the class list |
| `Models.Normalize` | code/project-template/backend/models.py:123 | every intensity divided by 255, shape kept; intensities in [0,255] land in [0,1] |
| `Models.ProcessingInput` | code/project-template/backend/models.py:110-124 | only bytes are decoded; an undecodable image fails; otherwise a batch of exactly one normalised image of the library's decode at the target size |
| `Models.IrisArtifact` | code/project-template/backend/models.py:69-76 | tensorflow gives the tf artifact and sklearn the pickle, version 1 both; pytorch raises ValueError |
| `Models.FixedClassesDistinct` | code/project-template/backend/models.py:77 | the iris labels (3) and the flower labels (5) contain no repeated label |
| `Models.Model.constructor` | code/project-template/backend/models.py:14-26 | stores name, path, framework, version and classes; no model loaded and no target size yet |
| `Models.Model.Load` | code/project-template/backend/models.py:30-53 | sets `model` to what the framework's loader returned, or fails leaving it alone; other fields unchanged |
| `Models.Model.Scores` | code/project-template/backend/models.py:81-133 | the base class raises NotImplementedError; IrisModel uses `predict_proba` (sklearn) or `predict` (tensorflow); FlowersModel applies softmax to the network's scores on the preprocessed image |
| `Models.Model.Predict` | code/project-template/backend/models.py:58-137 | the result is the shaped score rows, one dictionary per row of the library's output |
| `Models.Model.Call` | code/project-template/backend/models.py:55-56 | calling a model gives exactly what `predict` gives |
| `Models.OutputsKeyedByClass` | code/project-template/backend/models.py:85-95 | for distinct labels, a successful prediction maps `classes[j]` to `round(row[i][j])` in output i, and succeeds iff no row outgrows the classes |
| `Models.New` | code/project-template/backend/models.py:14-28 | construction succeeds iff loading does; a fresh loaded model with the given fields |
| `Models.NewIrisModel` | code/project-template/backend/models.py:67-79 | tensorflow by default; pytorch raises before anything loads; otherwise succeeds iff the artifact loads, giving "iris-model", version 1 and the three iris classes in order |
| `Models.NewFlowersModel` | code/project-template/backend/models.py:100-108 | succeeds iff the Keras artifact loads; name "flowers-model", tensorflow, version 1, the five flower classes in order, target size (180, 180) |
| `IrisModelMethods.IrisFeatures.ToList` | code/project-template/backend/iris_model_methods.py:12-13 | four features: sepal length, sepal width, petal length, petal width |
| `IrisModelMethods.ToListInjective` | code/project-template/backend/iris_model_methods.py:12-13 | the feature list determines the request, so no measurement is lost |
| `IrisModelMethods.ModelName` | code/project-template/backend/iris_model_methods.py:26-27 | the `model_name` query parameter, absent when not given |
| `IrisModelMethods.Get` | code/project-template/backend/iris_model_methods.py:29 | a model is found iff a name is given and the garden holds it |
| `IrisModelMethods.Respond` | code/project-template/backend/iris_model_methods.py:33-34 | status 200 with the prediction unchanged under "prediction"; a raised error propagates |
| `IrisModelMethods.Predict` | code/project-template/backend/iris_model_methods.py:24-34 | missing or unknown name gives 404 "Model not found"; a known name gives that model's prediction on the one-row batch `[to_list()]`; any non-404 answer is a 200 prediction |
| `TemplateApi.Lifespan` | code/project-template/backend/api.py:8-21 | starts from an empty garden; succeeds iff the tf iris model loads; then exactly one key "iris_model" holding a fresh tensorflow model, version 1, the three iris classes; on failure the garden stays empty |
| `TemplateApi.AfterStartup` | code/project-template/backend/api.py:13-21 | with only "iris_model" registered, every other name or none gives 404, and "iris_model" gives that model's prediction |
| `IrisModelApi.Predict` | code/project-template/backend/iris_model_api.py:25-31 | without "iris-model" in the garden, KeyError; with it, the model's dictionaries for `[to_list()]` under "prediction", or the model's error |
| `IrisProjectApi.Server.constructor` | code/iris-project/backend/api.py:7 | the module-level garden starts empty |
| `IrisProjectApi.Server.Lifespan` | code/iris-project/backend/api.py:10-24 | succeeds iff the tf iris model loads; then the garden is the old one with "iris" set to a fresh tensorflow model, version 1, the three iris classes; on failure it is unchanged |
| `IrisProjectApi.Server.Predict` | code/iris-project/backend/api.py:94-103 | while the garden holds at most "iris", any other name or none gives 404; "iris" gives the model's prediction on `[to_list()]` |
| `IrisProjectApi.Startup` | code/iris-project/backend/api.py:7-24 | import then startup leaves exactly the key "iris", or an empty garden when loading fails |

All handlers are functions or methods without a `modifies` clause, so the
predict handlers provably never insert into or remove from a garden, and
`predict` never changes a model's fields.

## Left out

- Loading and inference inside the libraries: joblib `load`, Keras `load_model`, `predict`, `predict_proba`, `tf.nn.softmax`, `load_img`/`img_to_array`. They are opaque parameters, because they are foreign code.
- Floating point: scores are `real`s and `round(x, 3)` is an opaque parameter, so no rounding behaviour or float edge case (NaN, infinities) is modelled.
- Models.Model.Predict: states one dictionary per row of the library's output, not per input row, because the library is not assumed to return one row per input row.
- Models.ProcessingInput: an input other than bytes fails with `NotBytes`, which stands for the TypeError `BytesIO` raises; the image decode is the library's.
- Models.Normalize: `img_to_array` and `convert_to_tensor` are folded into the library's image decode; resampling and decoding are not modelled.
- Models.RowDict: the output dictionaries are Dafny maps, so their key order (class order, which the JSON response keeps) is not modelled; only the keys and their values are.
- Models.ShapeRows: the IndexError carries `len(classes)`, the index the comprehension fails at; the partially built dictionary is not kept, since Python discards it.
- Model.Model.Predict: `classes=None` is not a separate case; it behaves like `[]` in the source. Labels that are not integers (a TypeError in `classes[label]`) are not modelled; sklearn predictions are class indices.
- The async `lifespan` generator after its `yield` (a shutdown print), request concurrency, FastAPI routing and route prefixes, pydantic validation of the request body, and JSON serialisation.
- The greeting routes (`/`, `/hi`), `receive_image` (a file write), the users routers, backend/flowers_model_api.py (an upload that only indexes "flowers-model"), decorators.py and main.py: glue with no logic of the garden.
- The MLflow training, registry and client scripts, the credential and database checks, and both Streamlit front ends: external services and UI.
