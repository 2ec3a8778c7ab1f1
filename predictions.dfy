/** The zkML predictions page: a schema of three models, a missing-field check on the
    form, the handler that starts a generation, the generation timer that inserts an
    unverified prediction, and the verification timer that marks it verified. */
module AIPredictions {
  import opened Lists
  import opened TaskList

  datatype InputField = InputField(key: string, labelText: string, fieldType: string, placeholder: string)

  datatype ModelConfig = ModelConfig(name: string, description: string, inputFields: seq<InputField>)

  /** `availableModels`, keyed by model id. */
  const AvailableModels: map<string, ModelConfig> := map[
    "credit-risk" := ModelConfig("Credit Risk Assessment", "Analyze credit risk based on financial metrics", [
      InputField("income", "Annual Income ($)", "number", "50000"),
      InputField("debt", "Total Debt ($)", "number", "25000"),
      InputField("credit_history", "Credit History (years)", "number", "5"),
      InputField("employment", "Employment Status", "text", "Full-time")]),
    "price-prediction" := ModelConfig("Asset Price Prediction", "Predict future asset prices using ML models", [
      InputField("symbol", "Asset Symbol", "text", "ETH"),
      InputField("timeframe", "Timeframe (hours)", "number", "24"),
      InputField("current_price", "Current Price ($)", "number", "2000"),
      InputField("volume", "24h Volume", "number", "1000000")]),
    "defi-risk" := ModelConfig("DeFi Protocol Risk", "Assess risk levels of DeFi protocols", [
      InputField("protocol", "Protocol Name", "text", "Uniswap"),
      InputField("tvl", "TVL ($)", "number", "5000000000"),
      InputField("age_days", "Protocol Age (days)", "number", "365"),
      InputField("audit_score", "Audit Score (0-100)", "number", "85")])
  ]

  /** The keys of `availableModels`. */
  predicate IsModelId(key: string)
  {
    key == "credit-risk" || key == "price-prediction" || key == "defi-risk"
  }

  /** The schema holds exactly the three models. */
  lemma SchemaKeys(key: string)
    ensures key in AvailableModels <==> IsModelId(key)
  {
  }

  /** The synthesized outcome, one shape per model; `UnknownModel` is the `default` branch. */
  datatype PredictionResult =
    | CreditRisk(riskScore: real, riskLevel: string, recommendedAction: string)
    | PricePrediction(priceChange: real, direction: string)
    | DefiRisk(riskScore: real, riskCategory: string, recommendation: string)
    | UnknownModel

  datatype Prediction = Prediction(id: string, modelType: string, input: map<string, string>,
                                   prediction: PredictionResult, confidence: real,
                                   zkProof: string, verified: bool, timestamp: int)

  /** `inputData[key]` is truthy: present and not the empty string. */
  predicate Filled(data: map<string, string>, key: string)
  {
    key in data && data[key] != ""
  }

  /** `inputFields.filter(field => !inputData[field.key])`. */
  function MissingFields(fields: seq<InputField>, data: map<string, string>): (r: seq<InputField>)
    ensures forall i :: 0 <= i < |r| ==> r[i] in fields && !Filled(data, r[i].key)
    ensures forall i :: 0 <= i < |fields| && !Filled(data, fields[i].key) ==> fields[i] in r
    ensures IsSubsequence(r, fields)
    ensures r == [] <==> forall i :: 0 <= i < |fields| ==> Filled(data, fields[i].key)
  {
    var r := Filter((f: InputField) => !Filled(data, f.key), fields);
    assert r != [] ==> r[0] in r;
    r
  }

  /** When one declared field alone is unfilled, the check names exactly that field. */
  lemma MissingExactlyOne(fields: seq<InputField>, data: map<string, string>, k: nat)
    requires k < |fields|
    requires forall i :: 0 <= i < |fields| ==> (Filled(data, fields[i].key) <==> i != k)
    ensures MissingFields(fields, data) == [fields[k]]
  {
    FilterSingle((f: InputField) => !Filled(data, f.key), fields, k);
  }

  // ----- the mock classifiers -----

  /** Credit-risk level for a score in [0, 100). */
  function CreditRiskLevel(score: real): (level: string)
    ensures level == "Low" <==> score > 70.0
    ensures level == "Medium" <==> 40.0 < score <= 70.0
    ensures level == "High" <==> score <= 40.0
  {
    if score > 70.0 then "Low" else if score > 40.0 then "Medium" else "High"
  }

  function CreditRecommendation(score: real): (action: string)
    ensures action == "Approve" <==> score > 70.0
    ensures action == "Approve" || action == "Review Required"
  {
    if score > 70.0 then "Approve" else "Review Required"
  }

  /** DeFi-risk category for a draw r in [0, 1). */
  function DefiRiskCategory(r: real): (category: string)
    ensures category == "Low Risk" <==> r > 0.7
    ensures category == "Medium Risk" <==> 0.4 < r <= 0.7
    ensures category == "High Risk" <==> r <= 0.4
  {
    if r > 0.7 then "Low Risk" else if r > 0.4 then "Medium Risk" else "High Risk"
  }

  function DefiRecommendation(r: real): (recommendation: string)
    ensures recommendation == "Safe to interact" <==> r > 0.7
    ensures recommendation == "Safe to interact" || recommendation == "Exercise caution"
  {
    if r > 0.7 then "Safe to interact" else "Exercise caution"
  }

  function PriceDirection(change: real): (direction: string)
    ensures direction == "Bullish" <==> change > 0.0
    ensures direction == "Bullish" || direction == "Bearish"
  {
    if change > 0.0 then "Bullish" else "Bearish"
  }

  /** `Math.random() * 30 + 70` for the draw r. */
  function Confidence(r: real): (c: real)
    requires 0.0 <= r < 1.0
    ensures 70.0 <= c < 100.0
  {
    r * 30.0 + 70.0
  }

  /** What a stored outcome must look like for its model: the kind matches the model id,
      the score lies in range, and each label agrees with the score's thresholds. */
  predicate Fits(modelType: string, result: PredictionResult)
  {
    match result
    case CreditRisk(score, level, action) =>
      modelType == "credit-risk" && 0.0 <= score < 100.0 &&
      (level == "Low" <==> score > 70.0) &&
      (level == "Medium" <==> 40.0 < score <= 70.0) &&
      (level == "High" <==> score <= 40.0) &&
      (action == "Approve" <==> score > 70.0) &&
      (action == "Approve" || action == "Review Required")
    case PricePrediction(change, direction) =>
      modelType == "price-prediction" && -10.0 <= change < 10.0 &&
      (direction == "Bullish" <==> change > 0.0) &&
      (direction == "Bullish" || direction == "Bearish")
    case DefiRisk(score, category, recommendation) =>
      modelType == "defi-risk" && 0.0 <= score < 100.0 &&
      (category == "Low Risk" <==> score > 70.0) &&
      (category == "Medium Risk" <==> 40.0 < score <= 70.0) &&
      (category == "High Risk" <==> score <= 40.0) &&
      (recommendation == "Safe to interact" <==> score > 70.0) &&
      (recommendation == "Safe to interact" || recommendation == "Exercise caution")
    case UnknownModel =>
      modelType !in AvailableModels
  }

  /** The `switch (selectedModel)` of the generation timer, for the model's draw r. */
  function Synthesize(modelType: string, r: real): (result: PredictionResult)
    requires 0.0 <= r < 1.0
    ensures Fits(modelType, result)
  {
    if modelType == "credit-risk" then
      var riskScore := r * 100.0;
      CreditRisk(riskScore, CreditRiskLevel(riskScore), CreditRecommendation(riskScore))
    else if modelType == "price-prediction" then
      var change := (r - 0.5) * 0.2;
      PricePrediction(change * 100.0, PriceDirection(change))
    else if modelType == "defi-risk" then
      DefiRisk(r * 100.0, DefiRiskCategory(r), DefiRecommendation(r))
    else
      UnknownModel
  }

  /** Every credit-risk level is reached by some draw. */
  lemma CreditRiskLevelsReachable()
    ensures Synthesize("credit-risk", 0.8).riskLevel == "Low"
    ensures Synthesize("credit-risk", 0.5).riskLevel == "Medium"
    ensures Synthesize("credit-risk", 0.1).riskLevel == "High"
  {
  }

  // ----- the prediction records -----

  /** What the generation timer captured when the button was clicked. */
  datatype GenerationJob = GenerationJob(modelType: string, input: map<string, string>)

  /** Which branch `generatePrediction` took. */
  datatype GenerateOutcome =
    | NoModelSelected
    | MissingInput(missing: seq<InputField>)
    | Generating(job: GenerationJob)

  /** A job passed both of the handler's checks. */
  predicate Ready(job: GenerationJob)
  {
    job.modelType in AvailableModels &&
    MissingFields(AvailableModels[job.modelType].inputFields, job.input) == []
  }

  /** What a stored prediction looks like: a known model, every declared field filled,
      confidence in [70, 100), and an outcome that fits its model. */
  predicate WellFormed(p: Prediction)
  {
    p.modelType in AvailableModels &&
    MissingFields(AvailableModels[p.modelType].inputFields, p.input) == [] &&
    70.0 <= p.confidence < 100.0 &&
    Fits(p.modelType, p.prediction)
  }

  /** The record the generation timer builds, for its draws and the `zkProof` token. */
  function NewPrediction(job: GenerationJob, id: string, now: int, confidenceDraw: real,
                         modelDraw: real, zkProof: string): (p: Prediction)
    requires Ready(job)
    requires 0.0 <= confidenceDraw < 1.0 && 0.0 <= modelDraw < 1.0
    ensures WellFormed(p) && !p.verified
    ensures p.id == id && p.modelType == job.modelType && p.input == job.input
  {
    Prediction(id, job.modelType, job.input, Synthesize(job.modelType, modelDraw),
               Confidence(confidenceDraw), zkProof, false, now)
  }

  ghost predicate AllWellFormed(ps: seq<Prediction>)
  {
    forall i :: 0 <= i < |ps| ==> WellFormed(ps[i])
  }

  function PredictionId(p: Prediction): string { p.id }

  function MarkVerified(p: Prediction): Prediction { p.(verified := true) }

  /** The updater the verification timer hands to `setPredictions`. */
  function VerifyById(ps: seq<Prediction>, id: string): seq<Prediction>
  {
    Update(ps, PredictionId, id, MarkVerified)
  }

  /** The only change a prediction record may undergo: none, or unverified to verified. */
  predicate PredictionStep(a: Prediction, b: Prediction)
  {
    a == b || (!a.verified && b == MarkVerified(a))
  }

  /** Verification sets `verified` on exactly the records with that id; every other field,
      every other record, the length and the order are unchanged; nothing is unverified. */
  lemma VerifyOnlyMatching(ps: seq<Prediction>, id: string)
    ensures var r := VerifyById(ps, id);
      |r| == |ps| &&
      forall i :: 0 <= i < |ps| ==>
        r[i].verified == (ps[i].verified || ps[i].id == id) &&
        r[i].(verified := ps[i].verified) == ps[i]
  {
  }

  /** With distinct ids, verifying the id of position k changes that record only. */
  lemma VerifyExactlyOne(ps: seq<Prediction>, k: nat)
    requires k < |ps| && Distinct(Keys(ps, PredictionId))
    ensures VerifyById(ps, ps[k].id) == ps[k := ps[k].(verified := true)]
  {
    UpdateAt(ps, PredictionId, MarkVerified, k);
  }

  lemma VerifyIdempotent(ps: seq<Prediction>, id: string)
    ensures VerifyById(VerifyById(ps, id), id) == VerifyById(ps, id)
  {
    UpdateIdempotent(ps, PredictionId, id, MarkVerified);
  }

  lemma VerifyAbsent(ps: seq<Prediction>, id: string)
    requires id !in Keys(ps, PredictionId)
    ensures VerifyById(ps, id) == ps
  {
    UpdateAbsent(ps, PredictionId, id, MarkVerified);
  }

  /** Two verification timers give the same list in either firing order. */
  lemma VerifyCommutes(ps: seq<Prediction>, a: string, b: string)
    ensures VerifyById(VerifyById(ps, a), b) == VerifyById(VerifyById(ps, b), a)
  {
    UpdateCommutes(ps, PredictionId, a, b, MarkVerified);
  }

  /** A verification timer and a later insertion with another id commute. */
  lemma VerifyCommutesWithInsert(p: Prediction, ps: seq<Prediction>, id: string)
    requires p.id != id
    ensures VerifyById([p] + ps, id) == [p] + VerifyById(ps, id)
  {
    UpdatePrepend(p, ps, PredictionId, id, MarkVerified);
  }

  /** An insertion with a fresh id keeps the prediction ids distinct. */
  lemma InsertKeepsDistinct(p: Prediction, ps: seq<Prediction>)
    requires Distinct(Keys(ps, PredictionId)) && p.id !in Keys(ps, PredictionId)
    ensures Distinct(Keys([p] + ps, PredictionId))
  {
    KeysPrepend(p, ps, PredictionId);
    PrependDistinct(p.id, Keys(ps, PredictionId));
  }

  lemma PredictionStepTransitive()
    ensures forall a, b, c :: PredictionStep(a, b) && PredictionStep(b, c) ==> PredictionStep(a, c)
  {
  }

  /** Verification only moves unverified records to verified and keeps them well formed. */
  lemma VerifyEvolves(ps: seq<Prediction>, id: string)
    requires AllWellFormed(ps)
    ensures Evolves(ps, VerifyById(ps, id), PredictionStep)
    ensures AllWellFormed(VerifyById(ps, id))
  {
    UpdateEvolves(ps, PredictionId, id, MarkVerified, PredictionStep);
  }

  // ----- the page component -----

  class PredictionsPage {
    var selectedModel: string
    var inputData: map<string, string>
    var isGenerating: bool
    var predictions: seq<Prediction>

    /** The selection is empty or a known model; every stored prediction is well formed. */
    ghost predicate Valid()
      reads this
    {
      (selectedModel == "" || IsModelId(selectedModel)) && AllWellFormed(predictions)
    }

    constructor ()
      ensures Valid()
      ensures selectedModel == "" && inputData == map[] && !isGenerating && predictions == []
    {
      selectedModel := "";
      inputData := map[];
      isGenerating := false;
      predictions := [];
    }

    /** `setSelectedModel` from the model picker, which offers the schema's keys only. */
    method SelectModel(key: string)
      requires Valid() && key in AvailableModels
      modifies this
      ensures Valid() && selectedModel == key
      ensures inputData == old(inputData) && isGenerating == old(isGenerating)
      ensures predictions == old(predictions)
    {
      selectedModel := key;
    }

    /** `handleInputChange`. */
    method HandleInputChange(key: string, value: string)
      requires Valid()
      modifies this
      ensures Valid() && inputData == old(inputData)[key := value]
      ensures selectedModel == old(selectedModel) && isGenerating == old(isGenerating)
      ensures predictions == old(predictions)
    {
      inputData := inputData[key := value];
    }

    /** The button handler `generatePrediction`, up to scheduling its generation timer,
        whose captured model and input copy it returns. */
    method GeneratePrediction() returns (outcome: GenerateOutcome)
      requires Valid()
      modifies this
      ensures Valid()
      ensures selectedModel == old(selectedModel) && inputData == old(inputData)
      ensures predictions == old(predictions)
      ensures old(selectedModel) == "" ==> outcome == NoModelSelected && isGenerating == old(isGenerating)
      ensures old(selectedModel) != "" ==>
        var missing := MissingFields(AvailableModels[old(selectedModel)].inputFields, old(inputData));
        if missing != [] then outcome == MissingInput(missing) && isGenerating == old(isGenerating)
        else outcome == Generating(GenerationJob(old(selectedModel), old(inputData))) && isGenerating
      ensures outcome.Generating? ==> Ready(outcome.job)
    {
      if selectedModel == "" {
        return NoModelSelected;
      }
      SchemaKeys(selectedModel);
      var modelConfig := AvailableModels[selectedModel];
      var missingFields := MissingFields(modelConfig.inputFields, inputData);
      if |missingFields| > 0 {
        return MissingInput(missingFields);
      }
      isGenerating := true;
      outcome := Generating(GenerationJob(selectedModel, inputData));
    }

    /** The generation timer: inserts the new, unverified prediction in front, clears
        `isGenerating`, and returns the id its verification timer will mark. */
    method FinishGeneration(job: GenerationJob, id: string, now: int, confidenceDraw: real,
                            modelDraw: real, zkProof: string) returns (verification: string)
      requires Valid() && Ready(job)
      requires 0.0 <= confidenceDraw < 1.0 && 0.0 <= modelDraw < 1.0
      modifies this
      ensures Valid() && !isGenerating && verification == id
      ensures predictions == [NewPrediction(job, id, now, confidenceDraw, modelDraw, zkProof)] + old(predictions)
      ensures selectedModel == old(selectedModel) && inputData == old(inputData)
      ensures Evolves(old(predictions), predictions, PredictionStep)
    {
      var newPrediction := NewPrediction(job, id, now, confidenceDraw, modelDraw, zkProof);
      PrependEvolves(newPrediction, predictions, PredictionStep);
      predictions := [newPrediction] + predictions;
      isGenerating := false;
      verification := id;
    }

    /** The verification timer set by the generation timer. */
    method VerifyPrediction(id: string)
      requires Valid()
      modifies this
      ensures Valid()
      ensures predictions == VerifyById(old(predictions), id)
      ensures selectedModel == old(selectedModel) && inputData == old(inputData)
      ensures isGenerating == old(isGenerating)
      ensures Evolves(old(predictions), predictions, PredictionStep)
    {
      VerifyEvolves(predictions, id);
      predictions := VerifyById(predictions, id);
    }
  }

  /** The credit-risk form filled except for the employment status. */
  const PartialCreditInput: map<string, string> :=
    map["income" := "50000", "debt" := "25000", "credit_history" := "5"]

  /** The credit-risk check names the employment field alone on that form. */
  lemma CreditRiskMissingEmployment()
    ensures MissingFields(AvailableModels["credit-risk"].inputFields, PartialCreditInput) ==
            [InputField("employment", "Employment Status", "text", "Full-time")]
  {
    var fields := AvailableModels["credit-risk"].inputFields;
    assert fields[3] == InputField("employment", "Employment Status", "text", "Full-time");
    MissingExactlyOne(fields, PartialCreditInput, 3);
  }

  /** Once employment is filled too, the credit-risk check passes. */
  lemma CreditRiskFormComplete()
    ensures Ready(GenerationJob("credit-risk", PartialCreditInput["employment" := "Full-time"]))
  {
    var data := PartialCreditInput["employment" := "Full-time"];
    var fields := AvailableModels["credit-risk"].inputFields;
    assert forall i :: 0 <= i < |fields| ==> Filled(data, fields[i].key);
  }

  /** The walkthrough of a fresh page: credit-risk with the employment field left empty is
      refused naming that field alone; once it is filled the prediction is generated
      unverified and its timer verifies it. */
  method CreditRiskWalkthrough(id: string, now: int, confidenceDraw: real, modelDraw: real)
    returns (refused: GenerateOutcome, started: GenerateOutcome, latest: Prediction)
    requires 0.0 <= confidenceDraw < 1.0 && 0.0 <= modelDraw < 1.0
    ensures refused == MissingInput([InputField("employment", "Employment Status", "text", "Full-time")])
    ensures started.Generating?
    ensures latest.id == id && latest.modelType == "credit-risk" && latest.verified
    ensures 70.0 <= latest.confidence < 100.0
  {
    var page := new PredictionsPage();
    page.SelectModel("credit-risk");
    page.HandleInputChange("income", "50000");
    page.HandleInputChange("debt", "25000");
    page.HandleInputChange("credit_history", "5");
    assert page.inputData == PartialCreditInput;
    CreditRiskMissingEmployment();
    CreditRiskFormComplete();
    refused := page.GeneratePrediction();
    page.HandleInputChange("employment", "Full-time");
    started := page.GeneratePrediction();
    var verification := page.FinishGeneration(started.job, id, now, confidenceDraw, modelDraw, "0x0");
    page.VerifyPrediction(verification);
    latest := page.predictions[0];
  }
}
