/**
 * The prediction handler behind `POST /predict`: choose one of two trained
 * classifiers by the request's `model` field, build the feature record from
 * the body, run the classifier on it, and shape the answer or the error.
 *
 * The classifiers are opaque: each is given by the feature names it was
 * trained on and by its classification and positive-class-probability
 * operations on a one-row frame, which may raise with a message of their
 * own (for one, when the frame's column names differ from those the
 * classifier was trained on).
 */
module App {
  import opened Json
  import opened Text
  import opened FeatureRecord

  datatype ModelKind = RandomForest | GradientBoosting

  const RandomForestName := "random_forest"
  const GradientBoostingName := "gradient_boosting"
  const InvalidModelMessage := "Invalid model type. Use 'random_forest' or 'gradient_boosting'."

  function Name(kind: ModelKind): (name: string)
    ensures name == RandomForestName || name == GradientBoostingName
    ensures NoUpper(name)
  {
    match kind
    case RandomForest => RandomForestName
    case GradientBoosting => GradientBoostingName
  }

  /** A loaded classifier. */
  datatype Classifier = Classifier(
    featureNamesIn: seq<string>,
    predict: Frame -> Result<int, string>,
    predictProba: Frame -> Result<real, string>)

  /** The two classifiers loaded at start-up, fixed for the life of the process. */
  datatype Service = Service(rf: Classifier, gb: Classifier)

  /** The feature schema is read from the random-forest classifier only. */
  function FeatureNames(svc: Service): (names: seq<string>)
    ensures names == svc.rf.featureNamesIn
  {
    svc.rf.featureNamesIn
  }

  /** `rf_model if model_type == "random_forest" else gb_model`. */
  function Choose(svc: Service, kind: ModelKind): (c: Classifier)
    ensures c == (if Name(kind) == RandomForestName then svc.rf else svc.gb)
  {
    match kind
    case RandomForest => svc.rf
    case GradientBoosting => svc.gb
  }

  /** What the handler returns: a prediction, or one of the two kinds of error. */
  datatype Response =
    | Ok(model: string, prediction: int, probability: real)
    | BadRequest(message: string)
    | InternalError(message: string)

  /** The requested model name: the `model` field, or "random_forest" when it is absent. */
  function ModelField(body: map<string, Value>): (v: Value)
    ensures "model" in body ==> v == body["model"]
    ensures "model" !in body ==> v == Str(RandomForestName)
  {
    Get(body, "model", Str(RandomForestName))
  }

  /** The model a name selects once lower-cased, if any. */
  function ParseModelName(s: string): (r: Option<ModelKind>)
    ensures r == Some(RandomForest) <==> Lower(s) == RandomForestName
    ensures r == Some(GradientBoosting) <==> Lower(s) == GradientBoostingName
    ensures r.Some? ==> Lower(s) == Name(r.value)
  {
    var modelType := Lower(s);
    if modelType == RandomForestName then Some(RandomForest)
    else if modelType == GradientBoostingName then Some(GradientBoosting)
    else None
  }

  /**
   * The model selection step: `data.get("model", "random_forest").lower()`
   * and the membership test. None stands for a rejected name; a `model` that
   * is not a string has no `lower` method and raises.
   */
  function SelectModel(body: map<string, Value>): (r: Result<Option<ModelKind>, PyException>)
    ensures "model" !in body ==> r == Success(Some(RandomForest))
    ensures r.Failure? <==> "model" in body && !body["model"].Str?
    ensures r.Failure? ==> r.error == AttributeError(TypeName(body["model"]), "lower")
    ensures r.Success? ==> (r.value.Some? <==> Lower(ModelField(body).s) in {RandomForestName, GradientBoostingName})
    ensures r.Success? && r.value.Some? ==> Name(r.value.value) == Lower(ModelField(body).s)
  {
    match ModelField(body)
    case Str(s) => Success(ParseModelName(s))
    case other => Failure(AttributeError(TypeName(other), "lower"))
  }

  /** The one-row frame the handler builds from a request body. */
  function FrameFor(svc: Service, body: map<string, Value>): Frame
  {
    ToFrame(Assemble(FeatureNames(svc), body))
  }

  /**
   * The five ways the `try` block raises: the body cannot be decoded, it is
   * not an object, its `model` is not a string, or the selected classifier's
   * classification or probability operation raises.
   */
  predicate Raises(svc: Service, request: Result<Value, string>)
  {
    || request.Failure?
    || !request.value.Object?
    || !ModelField(request.value.fields).Str?
    || var kind := ParseModelName(ModelField(request.value.fields).s);
       var frame := FrameFor(svc, request.value.fields);
       && kind.Some?
       && (|| Choose(svc, kind.value).predict(frame).Failure?
           || Choose(svc, kind.value).predictProba(frame).Failure?)
  }

  /** The body of the `try` block: every exception it raises is returned as a Failure. */
  function Attempt(svc: Service, request: Result<Value, string>): (r: Result<Response, PyException>)
    ensures r.Failure? <==> Raises(svc, request)
    ensures r.Success? ==> !r.value.InternalError?
    ensures r.Success? && r.value.Ok? ==> r.value.model == Lower(ModelField(request.value.fields).s)
  {
    match request
    case Failure(text) => Failure(Raised(text))
    case Success(data) =>
      if !data.Object? then Failure(AttributeError(TypeName(data), "get"))
      else
        match SelectModel(data.fields)
        case Failure(e) => Failure(e)
        case Success(None) => Success(BadRequest(InvalidModelMessage))
        case Success(Some(kind)) =>
          var model := Choose(svc, kind);
          var frame := FrameFor(svc, data.fields);
          match model.predict(frame)
          case Failure(text) => Failure(Raised(text))
          case Success(prediction) =>
            match model.predictProba(frame)
            case Failure(text) => Failure(Raised(text))
            case Success(probability) => Success(Ok(Name(kind), prediction, probability))
  }

  /** A request whose `model` is a string naming neither classifier. */
  predicate NamesUnknownModel(request: Result<Value, string>)
  {
    && request.Success?
    && request.value.Object?
    && ModelField(request.value.fields).Str?
    && Lower(ModelField(request.value.fields).s) != RandomForestName
    && Lower(ModelField(request.value.fields).s) != GradientBoostingName
  }

  /**
   * The handler. The request is the outcome of decoding the HTTP body, whose
   * failure is an exception like any other; `except Exception` turns every
   * exception into an internal error carrying its text.
   */
  function Predict(svc: Service, request: Result<Value, string>): (r: Response)
    ensures r.BadRequest? <==> NamesUnknownModel(request)
    ensures r.BadRequest? ==> r.message == InvalidModelMessage
    ensures r.Ok? ==> r.model == RandomForestName || r.model == GradientBoostingName
    ensures r.Ok? ==> request.Success? && request.value.Object? && ModelField(request.value.fields).Str?
                      && r.model == Lower(ModelField(request.value.fields).s)
    ensures request.Failure? ==> r == InternalError(request.error)
    ensures request.Success? && !request.value.Object? ==>
              r == InternalError("'" + TypeName(request.value) + "' object has no attribute 'get'")
  {
    match Attempt(svc, request)
    case Success(response) => response
    case Failure(e) => InternalError(Message(e))
  }

  /** An HTTP reply: a status code and a JSON body. */
  datatype Reply = Reply(status: int, body: Value)

  /** The `jsonify` step: a 200 with the three result fields, or a 400/500 with an `error` field. */
  function ToHttp(r: Response): (reply: Reply)
    ensures reply.status == 200 <==> r.Ok?
    ensures reply.status == 400 <==> r.BadRequest?
    ensures reply.status == 500 <==> r.InternalError?
    ensures reply.body.Object?
    ensures r.Ok? ==> reply.body.fields.Keys == {"model", "prediction", "probability"}
    ensures !r.Ok? ==> reply.body.fields.Keys == {"error"} && reply.body.fields["error"] == Str(r.message)
  {
    match r
    case Ok(model, prediction, probability) =>
      Reply(200, Object(map["model" := Str(model), "prediction" := Int(prediction), "probability" := Float(probability)]))
    case BadRequest(message) => Reply(400, Object(map["error" := Str(message)]))
    case InternalError(message) => Reply(500, Object(map["error" := Str(message)]))
  }

  /** Reads a reply back as a response; the inverse of ToHttp. */
  function FromHttp(reply: Reply): Option<Response>
  {
    if !reply.body.Object? then None
    else
      var f := reply.body.fields;
      if reply.status == 200 then
        if "model" in f && f["model"].Str? && "prediction" in f && f["prediction"].Int?
           && "probability" in f && f["probability"].Float?
        then Some(Ok(f["model"].s, f["prediction"].i, f["probability"].f))
        else None
      else if "error" in f && f["error"].Str? then
        if reply.status == 400 then Some(BadRequest(f["error"].s))
        else if reply.status == 500 then Some(InternalError(f["error"].s))
        else None
      else None
  }

  /** The reply carries everything in the response: status and body determine it. */
  lemma ReplyDeterminesResponse(r: Response)
    ensures FromHttp(ToHttp(r)) == Some(r)
  {
  }

  /** Without a `model` field the random forest is selected. */
  lemma DefaultSelectsRandomForest(body: map<string, Value>)
    requires "model" !in body
    ensures SelectModel(body) == SelectModel(body["model" := Str(RandomForestName)])
    ensures SelectModel(body) == Success(Some(RandomForest))
  {
    assert Lower(RandomForestName) == RandomForestName;
  }

  /**
   * Without a `model` field a request is answered as if it named
   * "random_forest", provided "model" is not itself a feature name.
   */
  lemma MissingModelIsRandomForest(svc: Service, body: map<string, Value>)
    requires "model" !in body
    requires "model" !in FeatureNames(svc)
    ensures Predict(svc, Success(Object(body))) == Predict(svc, Success(Object(body["model" := Str(RandomForestName)])))
  {
    var b' := body["model" := Str(RandomForestName)];
    DefaultSelectsRandomForest(body);
    AssembleIgnoresExtraKeys(FeatureNames(svc), body, b');
  }

  /** Model names differing only in letter case select the same model and are answered alike. */
  lemma ModelNameCaseInsensitive(svc: Service, body: map<string, Value>, s: string, t: string)
    requires Lower(s) == Lower(t)
    requires "model" !in FeatureNames(svc)
    ensures Predict(svc, Success(Object(body["model" := Str(s)]))) ==
            Predict(svc, Success(Object(body["model" := Str(t)])))
  {
    var bs, bt := body["model" := Str(s)], body["model" := Str(t)];
    assert SelectModel(bs) == Success(ParseModelName(s)) == SelectModel(bt);
    AssembleIgnoresExtraKeys(FeatureNames(svc), bs, bt);
  }

  /** Upper- and mixed-case spellings of the two names are accepted. */
  lemma CaseVariantsAccepted()
    ensures SelectModel(map["model" := Str("RANDOM_FOREST")]) == Success(Some(RandomForest))
    ensures SelectModel(map["model" := Str("Gradient_Boosting")]) == Success(Some(GradientBoosting))
  {
    assert Lower("RANDOM_FOREST") == RandomForestName;
    assert Lower("Gradient_Boosting") == GradientBoostingName;
  }

  /** An unknown model name is answered with the fixed 400 message whatever the classifiers are: neither is run. */
  lemma UnknownModelRunsNoClassifier(svc: Service, other: Service, request: Result<Value, string>)
    requires NamesUnknownModel(request)
    ensures Predict(svc, request) == BadRequest(InvalidModelMessage)
    ensures Predict(svc, request) == Predict(other, request)
    ensures ToHttp(Predict(svc, request)).status == 400
  {
  }

  /**
   * A successful answer comes from the classifier its `model` field names,
   * run on the frame assembled from the request body.
   */
  lemma OkComesFromSelectedModel(svc: Service, body: map<string, Value>)
    requires Predict(svc, Success(Object(body))).Ok?
    ensures var r := Predict(svc, Success(Object(body)));
            var c := if r.model == RandomForestName then svc.rf else svc.gb;
            var frame := FrameFor(svc, body);
            c.predict(frame) == Success(r.prediction) && c.predictProba(frame) == Success(r.probability)
  {
  }

  /** Conversely, a selected classifier whose two operations succeed gives a success with their results. */
  lemma SuccessWhenClassifierSucceeds(svc: Service, body: map<string, Value>, kind: ModelKind)
    requires SelectModel(body) == Success(Some(kind))
    requires Choose(svc, kind).predict(FrameFor(svc, body)).Success?
    requires Choose(svc, kind).predictProba(FrameFor(svc, body)).Success?
    ensures Predict(svc, Success(Object(body))) ==
            Ok(Name(kind), Choose(svc, kind).predict(FrameFor(svc, body)).value,
               Choose(svc, kind).predictProba(FrameFor(svc, body)).value)
  {
  }

  /** When the random forest is selected the gradient-boosting classifier plays no part. */
  lemma RandomForestIgnoresGradientBoosting(svc: Service, gb: Classifier, body: map<string, Value>)
    requires SelectModel(body) == Success(Some(RandomForest))
    ensures Predict(svc, Success(Object(body))) == Predict(Service(svc.rf, gb), Success(Object(body)))
  {
  }

  /**
   * When gradient boosting is selected the random-forest classifier plays no
   * part except through its feature names, which still fix the record.
   */
  lemma GradientBoostingUsesOnlyRandomForestSchema(svc: Service, rf: Classifier, body: map<string, Value>)
    requires SelectModel(body) == Success(Some(GradientBoosting))
    requires rf.featureNamesIn == svc.rf.featureNamesIn
    ensures Predict(svc, Success(Object(body))) == Predict(Service(rf, svc.gb), Success(Object(body)))
  {
  }

  /**
   * The handler never reads the gradient-boosting classifier's recorded
   * names; it runs that classifier on the random forest's columns.
   */
  lemma GradientBoostingSchemaUnused(svc: Service, names: seq<string>, request: Result<Value, string>)
    ensures Predict(svc, request) == Predict(Service(svc.rf, svc.gb.(featureNamesIn := names)), request)
  {
  }

  /** Leaving a feature out of the body is answered exactly as sending 0 for it. */
  lemma OmittedFeatureAnsweredAsZero(svc: Service, body: map<string, Value>, key: string)
    requires key != "model"
    ensures Predict(svc, Success(Object(body - {key}))) == Predict(svc, Success(Object(body[key := Int(0)])))
  {
    assert ModelField(body - {key}) == ModelField(body[key := Int(0)]);
    OmittedFeatureIsZero(FeatureNames(svc), body, key);
  }

  /** Keys that are neither features nor `model` do not change the answer. */
  lemma ExtraKeysIgnored(svc: Service, b1: map<string, Value>, b2: map<string, Value>)
    requires forall key :: key in FeatureNames(svc) || key == "model" ==>
               (key in b1 <==> key in b2) && (key in b1 ==> b1[key] == b2[key])
    ensures Predict(svc, Success(Object(b1))) == Predict(svc, Success(Object(b2)))
  {
    assert ModelField(b1) == ModelField(b2);
    AssembleIgnoresExtraKeys(FeatureNames(svc), b1, b2);
  }

  /**
   * Every exception ends as a 500 carrying its text: a body that cannot be
   * decoded, a body that is not an object, a `model` that is not a string, or
   * a classifier that raises. Nothing else gives a 500.
   */
  lemma ExceptionsBecomeInternalErrors(svc: Service, request: Result<Value, string>)
    ensures Predict(svc, request).InternalError? <==> Raises(svc, request)
    ensures Attempt(svc, request).Failure? ==>
              Predict(svc, request) == InternalError(Message(Attempt(svc, request).error))
    ensures request.Success? && request.value.Object? && !ModelField(request.value.fields).Str? ==>
              Predict(svc, request) ==
              InternalError("'" + TypeName(ModelField(request.value.fields)) + "' object has no attribute 'lower'")
    ensures ToHttp(Predict(svc, request)).status in {200, 400, 500}
  {
  }

  /** A classifier that raises on the row yields a 500 with its message; no partial result escapes. */
  lemma ClassifierFailureIsInternalError(svc: Service, body: map<string, Value>, kind: ModelKind)
    requires SelectModel(body) == Success(Some(kind))
    ensures var c := Choose(svc, kind);
            var frame := FrameFor(svc, body);
            c.predict(frame).Failure? ==> Predict(svc, Success(Object(body))) == InternalError(c.predict(frame).error)
    ensures var c := Choose(svc, kind);
            var frame := FrameFor(svc, body);
            c.predict(frame).Success? && c.predictProba(frame).Failure? ==>
              Predict(svc, Success(Object(body))) == InternalError(c.predictProba(frame).error)
  {
  }

  /** `{"model": "RANDOM_FOREST", "f1": 2.0}` with schema [f1, f2]: the forest sees [2.0, 0] and the answer names "random_forest". */
  lemma ScenarioUpperCaseName(svc: Service)
    requires FeatureNames(svc) == ["f1", "f2"]
    ensures FrameFor(svc, map["model" := Str("RANDOM_FOREST"), "f1" := Float(2.0)]) ==
            Frame(["f1", "f2"], [Float(2.0), Int(0)])
    ensures var frame := Frame(["f1", "f2"], [Float(2.0), Int(0)]);
            svc.rf.predict(frame).Success? && svc.rf.predictProba(frame).Success? ==>
              Predict(svc, Success(Object(map["model" := Str("RANDOM_FOREST"), "f1" := Float(2.0)]))) ==
              Ok(RandomForestName, svc.rf.predict(frame).value, svc.rf.predictProba(frame).value)
  {
    assert Lower("RANDOM_FOREST") == RandomForestName;
    var body := map["model" := Str("RANDOM_FOREST"), "f1" := Float(2.0)];
    AssembleFollowsSchema(["f1", "f2"], body);
  }

  /** `{}`: the forest is run on an all-zero row. */
  lemma ScenarioEmptyBody(svc: Service)
    ensures var row := FrameFor(svc, map[]).row;
            forall i :: 0 <= i < |row| ==> row[i] == Int(0)
    ensures var frame := FrameFor(svc, map[]);
            svc.rf.predict(frame).Success? && svc.rf.predictProba(frame).Success? ==>
              Predict(svc, Success(Object(map[]))) ==
              Ok(RandomForestName, svc.rf.predict(frame).value, svc.rf.predictProba(frame).value)
  {
    DefaultSelectsRandomForest(map[]);
  }

  /** `{"model": "svm"}` is a 400 with the fixed message. */
  lemma ScenarioUnknownModel(svc: Service)
    ensures ToHttp(Predict(svc, Success(Object(map["model" := Str("svm")])))) ==
            Reply(400, Object(map["error" := Str(InvalidModelMessage)]))
  {
    assert Lower("svm") == "svm";
  }
}
