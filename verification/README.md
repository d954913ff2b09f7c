# Insurance prediction service: the `/predict` handler

This project models the request handling of a small prediction service. The service holds two
trained binary classifiers, a random forest and a gradient-boosting model. One HTTP endpoint,
`POST /predict`, does the following:

- it reads a JSON body;
- it picks a classifier by the optional, case-insensitive `model` field (default `random_forest`);
- it builds a one-row feature record with one column per feature name the random forest was
  trained on, in that order, using 0 for every feature the body leaves out;
- it runs the chosen classifier and answers `{model, prediction, probability}`.

An unknown model name is a 400 with a fixed message. Any exception is a 500 carrying the
exception's text.

The classifiers are opaque values. Each one is given by:

- its recorded training feature names;
- a classification function;
- a positive-class probability function.

Both functions take the one-row frame: its column names and its values. Either may raise, for
example when the column names differ from those the classifier was trained on. The decoded request body is an input. Decoding can fail too, and
that failure is an exception like any other.

Modules:

- `Json` (json.dfy): decoded JSON values and their Python type names, `dict.get`, and the
  `Result`/`Option` types. It also holds the exceptions that reach a response and their text.
- `Text` (text.dfy): lower-casing of the model name.
- `FeatureRecord` (feature_record.dfy): the feature record, modelled as an insertion-ordered
  dict (a sequence of name/value entries). It also holds the dict comprehension that fills the
  record and the DataFrame row made from it.
- `App` (app.py's handler, app.dfy): model selection, the `try` body, the `except` clause, HTTP
  shaping and the properties of the whole handler.

About the record:

- The comprehension inserts the schema's names one after another. A repeated name therefore
  keeps its first position, and the record holds the schema's names without repetitions
  (`Dedup`). For a schema without repeated names, which is what a trained classifier records,
  the record's keys are exactly the schema.
- The schema comes from the random forest only. The handler never reads the gradient-boosting
  classifier's recorded names. It runs that classifier on the random forest's columns. Whether
  those columns suit the gradient-boosting classifier is up to that classifier, which sees the
  column names and may raise, which gives a 500.
- `model` is read from the same body as the features. If a classifier had been trained on a
  feature called `model`, the model name would also be fed to it as a feature value. The
  properties "absent `model` is `random_forest`" and "the name is case-insensitive" therefore
  hold at the level of the whole answer only when `model` is not a feature name. They hold for
  the selection itself unconditionally.

## Model

| member | source | states |
|---|---|---|
| `Json.Get` | app.py:21-28 | `dict.get`: the body's value when the key is present, the default when it is absent |
| `Json.Message` | app.py:41-42 | `str(e)`: an exception raised outside the model keeps its own text; an attribute error's text starts with the quoted type name and ends with the quoted attribute name |
| `Json.TypeName` | app.py:41-42 | the Python type name in an error message is "dict" exactly for objects and "str" exactly for strings |
| `Text.Lower` | app.py:21 | lower-casing keeps the length and lower-cases each character on its own |
| `Text.LowerFixesExactlyLowercase` | app.py:21 | a lower-cased name contains no capital, and a name is unchanged by lower-casing exactly when it has no capital |
| `Text.LowerIdempotent` | app.py:21 | lower-casing an already lower-cased name changes nothing |
| `FeatureRecord.Insert` | app.py:28 | assigning into the record replaces the value of an existing key in place and leaves every other entry alone; a new key is appended at the end |
| `FeatureRecord.RowOf` | app.py:29 | the frame's single row has one value per record entry, holding that entry's value, in record order |
| `FeatureRecord.ToFrame` | app.py:29 | the one-row frame has one column per record entry, named by its key and holding its value, in record order |
| `FeatureRecord.Dedup` | app.py:28 | the names of the schema, each once, in order of first occurrence: no repeats, the same set of names, never longer than the schema |
| `FeatureRecord.Assemble` | app.py:28 | the record's keys are the schema's names in first-occurrence order, each once; every entry holds the body's value for its key, or 0 when the key is absent |
| `FeatureRecord.DedupOfDistinct` | app.py:13 | a schema without repeated names is kept as it is |
| `FeatureRecord.AssembleLookup` | app.py:28 | looking a name up in the record gives the body's value when the name is a feature present in the body, 0 when it is a feature missing from the body, and nothing when it is not a feature |
| `FeatureRecord.AssembleFollowsSchema` | app.py:13-29 | for a schema without repeats, the record's keys are the schema in order, the row is as long as the schema, and column i holds the body's value for feature i or 0 |
| `FeatureRecord.AssembleDependsOnlyOnFeatures` | app.py:28 | two bodies whose defaulted values agree on every feature name give the same record |
| `FeatureRecord.AssembleIgnoresExtraKeys` | app.py:28 | two bodies that agree on every feature name, in presence and value, give the same record, however they differ elsewhere |
| `FeatureRecord.OmittedFeatureIsZero` | app.py:28 | omitting a key from the body gives the same record as sending 0 for it |
| `App.FeatureNames` | app.py:13 | the feature schema is the random forest's recorded training names |
| `App.ModelField` | app.py:21 | the requested name is the body's `model` value, or "random_forest" when the key is absent |
| `App.Choose` | app.py:25 | the random-forest classifier for the name "random_forest", the gradient-boosting one otherwise |
| `App.Attempt` | app.py:18-39 | the `try` body raises exactly in the five cases: undecodable body, non-object body, non-string `model`, failing classification, failing probability; when it returns, it returns a success or the 400 and never an internal error, and a success names the lower-cased request name |
| `App.Name` | app.py:22 | a model kind's name is one of the two accepted names and is already lower-case |
| `App.ParseModelName` | app.py:21-25 | a name selects the random forest exactly when it lower-cases to "random_forest", selects gradient boosting exactly when it lower-cases to "gradient_boosting", and selects nothing otherwise |
| `App.SelectModel` | app.py:21-25 | without `model` the random forest is selected; selection raises exactly when `model` is present and not a string, with "no attribute 'lower'" on its type; otherwise a model is selected exactly when the lower-cased name is one of the two, and its name is that lower-cased string |
| `App.Predict` | app.py:16-42 | the answer is a 400 exactly when the body is an object whose `model` is a string naming neither classifier, always with the fixed message; a success names one of the two models, and that name is the lower-cased request name; an undecodable body is a 500 with the decoder's text; a non-object body is a 500 with "'<type>' object has no attribute 'get'" |
| `App.ToHttp` | app.py:23-42 | status 200, 400 and 500 correspond exactly to success, invalid model and internal error; a success body has exactly the keys `model`, `prediction` and `probability`; an error body has the single key `error` holding the message |
| `App.ReplyDeterminesResponse` | app.py:35-42 | reading the HTTP reply back gives the response it was made from, so status and body lose nothing |
| `App.DefaultSelectsRandomForest` | app.py:21 | a body without `model` selects the same as one with `model = "random_forest"`, namely the random forest |
| `App.MissingModelIsRandomForest` | app.py:21-28 | when `model` is not a feature name, a body without `model` is answered exactly like the same body with `model = "random_forest"` |
| `App.ModelNameCaseInsensitive` | app.py:21-36 | when `model` is not a feature name, two model names that lower-case alike are answered identically, including the echoed name |
| `App.CaseVariantsAccepted` | app.py:21-22 | "RANDOM_FOREST" selects the random forest and "Gradient_Boosting" selects gradient boosting |
| `App.UnknownModelRunsNoClassifier` | app.py:22-23 | an unknown name is a 400 with the fixed message whatever the classifiers are, so neither classifier is consulted |
| `App.OkComesFromSelectedModel` | app.py:25-39 | a success's prediction and probability are those of the classifier its `model` names, computed on the frame assembled from the body |
| `App.SuccessWhenClassifierSucceeds` | app.py:25-39 | conversely, when a model is selected and both of its operations succeed on the frame, the answer is a success naming that model with their two results |
| `App.RandomForestIgnoresGradientBoosting` | app.py:25 | when the random forest is selected, replacing the gradient-boosting classifier changes nothing |
| `App.GradientBoostingUsesOnlyRandomForestSchema` | app.py:13-25 | when gradient boosting is selected, replacing the random forest with one that has the same feature names changes nothing |
| `App.GradientBoostingSchemaUnused` | app.py:13 | the handler never reads the gradient-boosting classifier's recorded names; it runs that classifier on the random forest's columns |
| `App.OmittedFeatureAnsweredAsZero` | app.py:28 | for any key other than `model`, omitting it gives the same answer as sending 0 for it |
| `App.ExtraKeysIgnored` | app.py:21-33 | two bodies that agree on `model` and on every feature name are answered identically |
| `App.ExceptionsBecomeInternalErrors` | app.py:17-42 | the answer is a 500 exactly in the five raising cases (undecodable body, non-object body, non-string `model`, failing classification, failing probability), and then it carries the exception's text; a `model` that is not a string gives "'<type>' object has no attribute 'lower'"; every answer has status 200, 400 or 500 |
| `App.ClassifierFailureIsInternalError` | app.py:32-42 | if the selected classifier's classification raises, the answer is a 500 with its message; if classification succeeds and the probability raises, the answer is a 500 with that message |
| `App.ScenarioUpperCaseName` | app.py:21-36 | with schema [f1, f2], the body {"model": "RANDOM_FOREST", "f1": 2.0} gives the frame with columns [f1, f2] and row [2.0, 0]; when the random forest's two operations succeed on it, the answer is a success naming "random_forest" with their results |
| `App.ScenarioEmptyBody` | app.py:21-39 | an empty body gives an all-zero row, and when the random forest's two operations succeed on that frame, the answer is a success with their results |
| `App.ScenarioUnknownModel` | app.py:22-23 | the body {"model": "svm"} gets status 400 with body {"error": "Invalid model type. Use 'random_forest' or 'gradient_boosting'."} |

## Left out

- HTTP plumbing is not modelled: the Flask application, routing, `app.run` and its debug mode, host and port. The handler receives the decoded body, or the decoder's error text, as an input.
- `request.get_json()` is not modelled. Its failures (wrong content type, malformed JSON) become an input `Failure(text)`, and the model does not predict the text.
- Loading the two `.pkl` files with `joblib.load` is not modelled: it is file I/O. The loaded classifiers are parameters, and reading `feature_names_in_` is a field of the random-forest classifier.
- `pd.DataFrame([record])` is modelled as its column names and its single row of values (`ToFrame`), without column types or an index. It is assumed not to raise.
- The scikit-learn `predict` and `predict_proba` calls are opaque functions of the frame that may fail with a message. Their check of the frame's column names against the classifier's own recorded names is part of those opaque functions, and is not spelled out. Taking element `[0]` of the first and `[0][1]` of the second is folded into those functions.
- App.Predict: does not model `round(float(probability), 4)` or `int(prediction)`, because they are floating-point numerics. The probability is passed through as the classifier gave it. Nothing is proved about its range or its number of decimals, and JSON float formatting is not modelled.
- Text.Lower: lower-cases ASCII letters only, because Python's full Unicode case mapping is out of scope. The set of accepted names is unaffected: besides 'A'..'Z', no character lower-cases to one of the letters of "random_forest" or "gradient_boosting". 'İ' becomes two characters, and the Kelvin sign becomes 'k', which neither name contains.
- Json.Value: a JSON float is modelled as an exact `real`, so float precision and special values are not captured.
- Concurrent serving of requests by the HTTP runtime is not modelled. The handler is stateless, and the classifiers are immutable values.
