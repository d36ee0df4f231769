/**
 * The web service: how it binds the prediction module at start-up (or
 * falls back to demo mode when the import fails), the `/predict` handler
 * that routes a validated request to one of three estimators and builds
 * the response, and the `/health` endpoint. Time stamps, logging and the
 * HTTP framework itself are not modelled.
 */
module Api {
  import opened Common
  import opened Schema
  import opened Prediction
  import MainDemo
  import AdditiveDemo

  // ---------------------------------------------------------------------
  // Start-up
  // ---------------------------------------------------------------------

  /**
   * The outcome of importing the prediction module: its globals after
   * loading ran at import time, or the failure that switches to demo mode.
   */
  datatype Import = Imported(components: Components) | ImportFailed

  /** The model type the prediction module declares. */
  const TrainedModelType: string := "Linear Regression"

  /** The model type set when the import fails. */
  const DemoModelType: string := "Random Forest (Demo Mode)"

  /** `model_type` as the service sees it. */
  function ModelType(imp: Import): (t: string)
    ensures t == TrainedModelType <==> imp.Imported?
    ensures imp.ImportFailed? ==> t == DemoModelType
  {
    if imp.Imported? then TrainedModelType else DemoModelType
  }

  /** The import as it happens: the module loads its artifacts while being imported. */
  function Startup(files: ArtifactFiles): Import {
    Imported(LoadModelComponents(files))
  }

  // ---------------------------------------------------------------------
  // Routing
  // ---------------------------------------------------------------------

  /** The three ways a prediction can be computed. */
  datatype Estimator = TrainedModel | AdditiveFallback | MultiplicativeFallback

  /**
   * Which estimator a request reaches: the handler calls the prediction
   * module only when a model is bound, and that module uses the trained
   * model only when the scaler is bound too.
   */
  function Route(imp: Import): (e: Estimator)
    ensures e == TrainedModel <==> imp.Imported? && UsesModel(imp.components)
    ensures e == AdditiveFallback <==> imp.Imported? && imp.components.model.Some? && imp.components.scaler.None?
    ensures e == MultiplicativeFallback <==> imp.ImportFailed? || imp.components.model.None?
  {
    match imp
    case ImportFailed => MultiplicativeFallback
    case Imported(c) =>
      if c.model.None? then MultiplicativeFallback
      else if c.scaler.None? then AdditiveFallback
      else TrainedModel
  }

  /** The cost estimate for a validated request, or the error the estimator raised. */
  function Estimate(imp: Import, req: Request, v: real): (r: Result<real, PredictError>)
    requires AdditiveDemo.IsDraw(v)
    ensures Route(imp) != TrainedModel ==> r.Ok? && r.value >= MainDemo.MinimumCost
  {
    match imp
    case Imported(c) =>
      if c.model.Some? then PredictCost(c, ToRow(req), v)
      else Ok(MainDemo.DemoPredictCost(ToRow(req)))
    case ImportFailed => Ok(MainDemo.DemoPredictCost(ToRow(req)))
  }

  // ---------------------------------------------------------------------
  // The explanation text
  // ---------------------------------------------------------------------

  const InsuranceNote: string := ". Insurance coverage may reduce actual out-of-pocket costs."
  const PrivateNote: string := " Private healthcare costs included."

  /** The first sentence of the explanation, which names the model type. */
  function Lead(modelType: string, trained: bool): string {
    "Prediction based on " + modelType
      + (if trained then " trained on Lesotho healthcare data" else " using realistic cost factors")
  }

  /**
   * `confidence_info`: the lead, then the insurance note, then the
   * private-care note. The insurance note is there exactly when the person
   * is insured and the private-care note exactly when they chose private
   * care, each at most once, whatever the model type.
   */
  function ConfidenceInfo(modelType: string, trained: bool, insured: bool, private: bool): (info: string)
    ensures ReadNotes(info) == (insured, private)
    ensures |info| == |Lead(modelType, trained)|
      + (if insured then |InsuranceNote| else 0) + (if private then |PrivateNote| else 0)
    ensures info[..|Lead(modelType, trained)|] == Lead(modelType, trained)
  {
    var lead := Lead(modelType, trained);
    var info := lead + (if insured then InsuranceNote else "") + (if private then PrivateNote else "");
    NotesDistinguishable(lead, modelType, trained);
    NotesReadBack(lead, insured, private, info);
    info
  }

  predicate EndsWith(s: string, suffix: string) {
    |suffix| <= |s| && s[|s| - |suffix|..] == suffix
  }

  /**
   * Reads back from an explanation which notes it carries: the private-care
   * note last, the insurance note before it.
   */
  function ReadNotes(info: string): (notes: (bool, bool)) {
    var private := EndsWith(info, PrivateNote);
    var rest := if private then info[..|info| - |PrivateNote|] else info;
    (EndsWith(rest, InsuranceNote), private)
  }

  // ---------------------------------------------------------------------
  // The handler
  // ---------------------------------------------------------------------

  /** `PredictionOutput` without its time stamp. */
  datatype Output = Output(predictedHealthcareCost: real, modelUsed: string, confidenceInfo: string)

  /**
   * What `/predict` answers: the output, an error raised as `ValueError`
   * (400), any other error (500), or the list of validation errors the
   * framework reports before the handler runs (422).
   */
  datatype Response =
    | Success(output: Output)
    | BadRequest(cause: PredictError)
    | InternalError(cause: PredictError)
    | Unprocessable(errors: seq<FieldError>)

  function StatusCode(r: Response): (code: int)
    ensures code == 200 <==> r.Success?
    ensures code == 400 <==> r.BadRequest?
    ensures code == 500 <==> r.InternalError?
    ensures code == 422 <==> r.Unprocessable?
  {
    match r
    case Success(_) => 200
    case BadRequest(_) => 400
    case InternalError(_) => 500
    case Unprocessable(_) => 422
  }

  /**
   * `predict_healthcare_cost` on a validated request: the estimate with the
   * model type and the explanation, or the estimator's error sorted into
   * client and server errors.
   */
  function PredictHealthcareCost(imp: Import, req: Request, v: real): (r: Response)
    requires AdditiveDemo.IsDraw(v)
    ensures var estimate := Estimate(imp, req, v);
      && (r.Success? <==> estimate.Ok?)
      && (r.BadRequest? <==> estimate.Err? && IsValueError(estimate.error))
      && (r.BadRequest? || r.InternalError? ==> r.cause == estimate.error)
      && (r.Success? ==> r.output.predictedHealthcareCost == estimate.value)
    ensures r.Success? ==>
      && r.output.modelUsed == ModelType(imp)
      && r.output.confidenceInfo == ConfidenceInfo(ModelType(imp), imp.Imported? && imp.components.model.Some?,
                                                   req.isInsured == 1, req.healthcareType == Private)
    ensures !r.Unprocessable?
  {
    var trained := imp.Imported? && imp.components.model.Some?;
    var info := ConfidenceInfo(ModelType(imp), trained, req.isInsured == 1, req.healthcareType == Private);
    Respond(Estimate(imp, req, v), ModelType(imp), info)
  }

  /** The response to an estimate: the output, or the error sorted into client and server errors. */
  function Respond(estimate: Result<real, PredictError>, modelType: string, info: string): (r: Response)
    ensures r.Success? <==> estimate.Ok?
    ensures r.Success? ==> r.output == Output(estimate.value, modelType, info)
    ensures r.BadRequest? <==> estimate.Err? && IsValueError(estimate.error)
    ensures r.InternalError? <==> estimate.Err? && !IsValueError(estimate.error)
    ensures r.BadRequest? || r.InternalError? ==> r.cause == estimate.error
  {
    match estimate
    case Ok(cost) => Success(Output(cost, modelType, info))
    case Err(e) => if IsValueError(e) then BadRequest(e) else InternalError(e)
  }

  /**
   * The notes of a successful answer read back as the request's insurance
   * status and care type.
   */
  lemma AnswerNotesFollowRequest(imp: Import, req: Request, v: real)
    requires AdditiveDemo.IsDraw(v) && PredictHealthcareCost(imp, req, v).Success?
    ensures ReadNotes(PredictHealthcareCost(imp, req, v).output.confidenceInfo)
      == (req.isInsured == 1, req.healthcareType == Private)
  {
  }

  /** A `/predict` call: the body is validated first, then handled. */
  function Predict(imp: Import, row: Row, v: real): (r: Response)
    requires AdditiveDemo.IsDraw(v)
    ensures r.Unprocessable? <==> !Valid(row)
    ensures r.Unprocessable? ==> r.errors == FieldErrors(row) && |r.errors| > 0
    ensures Valid(row) ==> exists req :: ToRow(req) == row && r == PredictHealthcareCost(imp, req, v)
  {
    match Validate(row)
    case Err(errors) => Unprocessable(errors)
    case Ok(req) => PredictHealthcareCost(imp, req, v)
  }

  // ---------------------------------------------------------------------
  // Health
  // ---------------------------------------------------------------------

  datatype Health = Health(status: string, modelStatus: string, featuresLoaded: nat)

  /** The feature list the service sees: the module's list, or the empty list in demo mode. */
  function BoundFeatureNames(imp: Import): Option<seq<string>> {
    match imp
    case Imported(c) => c.featureNames
    case ImportFailed => Some([])
  }

  /** `health_check` without its time stamp; an unset or empty feature list counts as nine. */
  function HealthCheck(imp: Import): (h: Health)
    ensures h.status == "healthy"
    ensures h.modelStatus == "loaded" <==> imp.Imported? && imp.components.model.Some?
    ensures h.modelStatus == "loaded" || h.modelStatus == "demo_mode"
  {
    var loaded := imp.Imported? && imp.components.model.Some?;
    var names := BoundFeatureNames(imp);
    Health("healthy", if loaded then "loaded" else "demo_mode",
           if names.Some? && names.value != [] then |names.value| else 9)
  }

  // ---------------------------------------------------------------------
  // Properties
  // ---------------------------------------------------------------------

  lemma EndsWithAppend(s: string, suffix: string)
    ensures EndsWith(s + suffix, suffix)
    ensures (s + suffix)[..|s + suffix| - |suffix|] == s
  {
    assert (s + suffix)[|s|..] == suffix;
  }

  /** Neither note can be mistaken for the end of the lead or of the other note. */
  lemma NotesDistinguishable(lead: string, modelType: string, trained: bool)
    requires lead == Lead(modelType, trained)
    ensures !EndsWith(lead, PrivateNote) && !EndsWith(lead, InsuranceNote)
    ensures !EndsWith(lead + InsuranceNote, PrivateNote)
  {
    var tail := if trained then " trained on Lesotho healthcare data" else " using realistic cost factors";
    assert lead == ("Prediction based on " + modelType) + tail;
    assert lead[|lead| - 1] == tail[|tail| - 1];
    EndsWithAppend(lead, InsuranceNote);
    assert (lead + InsuranceNote)[|lead + InsuranceNote| - 2] == InsuranceNote[|InsuranceNote| - 2];
  }

  /**
   * An explanation assembled from a lead that neither note can be mistaken
   * for the end of, and the chosen notes, reads back those notes.
   */
  lemma NotesReadBack(lead: string, insured: bool, private: bool, info: string)
    requires !EndsWith(lead, PrivateNote) && !EndsWith(lead, InsuranceNote)
    requires !EndsWith(lead + InsuranceNote, PrivateNote)
    requires info == lead + (if insured then InsuranceNote else "") + (if private then PrivateNote else "")
    ensures ReadNotes(info) == (insured, private)
    ensures info[..|lead|] == lead
  {
    var middle := lead + (if insured then InsuranceNote else "");
    if insured {
      EndsWithAppend(lead, InsuranceNote);
    } else {
      assert middle == lead;
    }
    if private {
      EndsWithAppend(middle, PrivateNote);
    } else {
      assert info == middle;
    }
    assert info[..|lead|] == lead by {
      assert info == lead + info[|lead|..];
    }
  }

  /** What loading the artifact files at start-up means for routing. */
  lemma RouteAfterLoad(files: ArtifactFiles)
    ensures Route(Startup(files)) == TrainedModel <==> files.model.Some? && files.scaler.Some?
    ensures Route(Startup(files)) == AdditiveFallback <==> files.model.Some? && files.scaler.None?
    ensures Route(Startup(files)) == MultiplicativeFallback <==> files.model.None?
  {
  }

  /** Each route computes its estimate with its own estimator. */
  lemma EstimateFollowsRoute(imp: Import, req: Request, v: real)
    requires AdditiveDemo.IsDraw(v)
    ensures Route(imp) == MultiplicativeFallback ==> Estimate(imp, req, v) == Ok(MainDemo.DemoPredictCost(ToRow(req)))
    ensures Route(imp) == AdditiveFallback ==> Estimate(imp, req, v) == Ok(AdditiveDemo.PredictDemo(ToRow(req), v))
    ensures Route(imp) == TrainedModel ==>
      imp.Imported? && UsesModel(imp.components)
      && Estimate(imp, req, v) == PredictWithModel(imp.components, RowFrame(ToRow(req)))
  {
  }

  /** Only the trained route can fail; only the additive route depends on the random draw. */
  lemma FallbacksNeverFail(imp: Import, req: Request, v: real, w: real)
    requires AdditiveDemo.IsDraw(v) && AdditiveDemo.IsDraw(w)
    ensures Route(imp) != TrainedModel ==> PredictHealthcareCost(imp, req, v).Success?
    ensures Route(imp) == AdditiveFallback ==> PredictHealthcareCost(imp, req, v).output.predictedHealthcareCost >= AdditiveDemo.MinimumCost
    ensures Route(imp) != AdditiveFallback ==> PredictHealthcareCost(imp, req, v) == PredictHealthcareCost(imp, req, w)
  {
    EstimateFollowsRoute(imp, req, v);
    EstimateFollowsRoute(imp, req, w);
  }

  /**
   * When the model and scaler files are present but the feature-list or
   * encoder file is missing, loading stops before the encoders, and every
   * valid request fails with a server error.
   */
  lemma MissingEncodersFailEveryRequest(files: ArtifactFiles, req: Request, v: real)
    requires AdditiveDemo.IsDraw(v)
    requires files.model.Some? && files.scaler.Some? && !AllFilesPresent(files)
    ensures PredictHealthcareCost(Startup(files), req, v) == InternalError(EncodersNotLoaded)
    ensures StatusCode(PredictHealthcareCost(Startup(files), req, v)) == 500
  {
    EncodersMissingFailsEveryRequest(LoadModelComponents(files), ToRow(req));
  }

  /**
   * When the model file is missing the import still succeeds, so the
   * answer names the trained model type although it comes from the
   * multiplicative fallback.
   */
  lemma MissingModelAnswersUnderTrainedName(files: ArtifactFiles, req: Request, v: real)
    requires AdditiveDemo.IsDraw(v)
    requires files.model.None?
    ensures PredictHealthcareCost(Startup(files), req, v).Success?
    ensures PredictHealthcareCost(Startup(files), req, v).output ==
      Output(MainDemo.DemoPredictCost(ToRow(req)), TrainedModelType,
             ConfidenceInfo(TrainedModelType, false, req.isInsured == 1, req.healthcareType == Private))
  {
  }

  /**
   * When the scaler file is missing the model is still bound, so the
   * answer comes from the additive fallback while the explanation says the
   * model was trained on Lesotho healthcare data.
   */
  lemma MissingScalerAnswersAsTrainedModel(files: ArtifactFiles, req: Request, v: real)
    requires AdditiveDemo.IsDraw(v)
    requires files.model.Some? && files.scaler.None?
    ensures PredictHealthcareCost(Startup(files), req, v).Success?
    ensures PredictHealthcareCost(Startup(files), req, v).output ==
      Output(AdditiveDemo.PredictDemo(ToRow(req), v), TrainedModelType,
             ConfidenceInfo(TrainedModelType, true, req.isInsured == 1, req.healthcareType == Private))
  {
  }

  /** On either fallback, being insured never raises the answer, all else equal. */
  lemma InsuredNeverCostlierOnFallbacks(imp: Import, req: Request, v: real)
    requires AdditiveDemo.IsDraw(v) && Route(imp) != TrainedModel
    ensures Estimate(imp, req.(isInsured := 1), v).value <= Estimate(imp, req.(isInsured := 0), v).value
  {
    var row := ToRow(req);
    assert ToRow(req.(isInsured := 1)) == row.(isInsured := 1);
    assert ToRow(req.(isInsured := 0)) == row.(isInsured := 0);
    if Route(imp) == AdditiveFallback {
      AdditiveDemo.InsuredNeverCostlier(row, v);
    } else {
      MainDemo.ValidIsAdultWithIncome(row);
      MainDemo.InsuredNeverCostlier(row);
    }
  }

  /**
   * On either fallback, an older person never gets a lower estimate, all
   * else equal; on the multiplicative route it is strictly higher.
   */
  lemma OlderNeverCheaperOnFallbacks(imp: Import, req: Request, older: Age, v: real)
    requires AdditiveDemo.IsDraw(v) && Route(imp) != TrainedModel && req.age < older
    ensures Estimate(imp, req, v).value <= Estimate(imp, req.(age := older), v).value
    ensures Route(imp) == MultiplicativeFallback ==>
      Estimate(imp, req, v).value < Estimate(imp, req.(age := older), v).value
  {
    var row := ToRow(req);
    assert ToRow(req.(age := older)) == row.(age := older);
    if Route(imp) == AdditiveFallback {
      AdditiveDemo.CostMonotoneInAge(row, older, v);
    } else {
      MainDemo.CostMonotoneInAge(row, older);
    }
  }

  /** What `/health` reports after start-up. */
  lemma HealthAfterLoad(files: ArtifactFiles)
    ensures HealthCheck(Startup(files)).modelStatus == (if files.model.Some? then "loaded" else "demo_mode")
    ensures !AllFilesPresent(files) ==> HealthCheck(Startup(files)).featuresLoaded == 9
    ensures AllFilesPresent(files) ==>
      HealthCheck(Startup(files)).featuresLoaded ==
        (if files.featureNames.value != [] then |files.featureNames.value| else 9)
    ensures HealthCheck(ImportFailed) == Health("healthy", "demo_mode", 9)
  {
    assert |DefaultFeatureNames| == 9;
  }

  /** The worked example as a validated request. */
  const ExampleRequest: Request := Request(45, Male, Maseru, 1, Employed, 4, Easy, 50000.0, Private)

  /** The worked example passes validation. */
  lemma ExampleValidates()
    ensures ToRow(ExampleRequest) == MainDemo.Example
    ensures Validate(MainDemo.Example) == Ok(ExampleRequest)
  {
    assert ToRow(ExampleRequest) == MainDemo.Example;
    RequestRoundTrip(ExampleRequest);
  }

  /**
   * The worked example in demo mode: a valid body, the multiplicative
   * estimate, the demo model type and both notes.
   */
  lemma ExampleInDemoMode(v: real)
    requires AdditiveDemo.IsDraw(v)
    ensures Predict(ImportFailed, MainDemo.Example, v) ==
      Success(Output(5286.62862, DemoModelType, Lead(DemoModelType, false) + InsuranceNote + PrivateNote))
  {
    ExampleValidates();
    MainDemo.ExampleCost();
    assert Estimate(ImportFailed, ExampleRequest, v) == Ok(5286.62862);
    assert PredictHealthcareCost(ImportFailed, ExampleRequest, v) ==
      Success(Output(5286.62862, DemoModelType, ConfidenceInfo(DemoModelType, false, true, true)));
  }
}
