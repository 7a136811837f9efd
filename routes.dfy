/**
  The JSON routes of the backend's HTTP layer: request validation for
  `POST /api/analyze`, and the static table behind `GET /api/threats`.
*/
module Routes {
  import opened Wrappers
  import opened JsonValue
  import opened Tables
  import opened Analysis

  /**
    The three outcomes of `POST /api/analyze`: the analysis (200), a
    validation error (400), or an exception caught by the handler (500,
    whose message is Python's text for the exception and is not modelled).
  */
  datatype Response =
    | Ok(analysis: AnalysisResult)
    | BadRequest(error: string)
    | ServerError

  const MissingError: string := "Missing content type or data"
  const UnsupportedError: string := "Unsupported content type"

  /** The HTTP status each outcome is sent with. */
  function StatusCode(r: Response): (code: int)
    ensures code == 200 <==> r.Ok?
    ensures code == 400 <==> r.BadRequest?
    ensures code == 500 <==> r.ServerError?
  {
    match r
    case Ok(_) => 200
    case BadRequest(_) => 400
    case ServerError => 500
  }

  /**
    `analyze_content`. The body is what `request.get_json()` returned, or
    None where that call raised. A body that is not a JSON object makes
    `data.get` raise; a truthy list or dict as `type`, with truthy `content`,
    cannot be looked up in the models' dict and raises too; both end in the
    500 handler.
  */
  function AnalyzeContent(body: Option<Json>, draws: AnalysisDraws): (r: Response)
    requires DrawsOk(draws)
    ensures r.BadRequest? ==> r.error in {MissingError, UnsupportedError}
  {
    match body
    case None => ServerError
    case Some(data) =>
      if !data.Object? then ServerError
      else
        var contentType := Get(data.fields, "type");
        var content := Get(data.fields, "content");
        if !Truthy(contentType) || !Truthy(content) then BadRequest(MissingError)
        else if !Hashable(contentType) then ServerError
        else if !(contentType.Str? && contentType.s in DetectionModels) then BadRequest(UnsupportedError)
        else Ok(GenerateAnalysis(contentType.s, draws))
  }

  /** A missing or falsy type or content is reported before the type is examined. */
  lemma MissingCheckedFirst(fields: map<string, Json>, draws: AnalysisDraws)
    requires DrawsOk(draws)
    requires !Truthy(Get(fields, "type")) || !Truthy(Get(fields, "content"))
    ensures AnalyzeContent(Some(Object(fields)), draws) == BadRequest(MissingError)
  {
  }

  /**
    The answer is 500 exactly when `get_json` raised, when the body is not
    a JSON object, or when `content` is truthy and `type` is a non-empty
    list or dict.
  */
  lemma ServerErrorExactly(body: Option<Json>, draws: AnalysisDraws)
    requires DrawsOk(draws)
    ensures AnalyzeContent(body, draws) == ServerError <==>
      || body.None?
      || !body.value.Object?
      || (&& Truthy(Get(body.value.fields, "type"))
          && Truthy(Get(body.value.fields, "content"))
          && !Hashable(Get(body.value.fields, "type")))
  {
  }

  /**
    The answer is 400 exactly when the body is an object and either a field
    is missing or falsy, or `type` is a hashable value that is not a
    supported name.
  */
  lemma BadRequestExactly(body: Option<Json>, draws: AnalysisDraws)
    requires DrawsOk(draws)
    ensures AnalyzeContent(body, draws).BadRequest? <==>
      && body.Some? && body.value.Object?
      && (|| !Truthy(Get(body.value.fields, "type"))
          || !Truthy(Get(body.value.fields, "content"))
          || (Hashable(Get(body.value.fields, "type"))
              && !(Get(body.value.fields, "type").Str? && Get(body.value.fields, "type").s in DetectionModels)))
  {
  }

  /** With both fields present, a hashable type that is not a supported name is rejected as unsupported. */
  lemma UnsupportedTypeRejected(fields: map<string, Json>, draws: AnalysisDraws)
    requires DrawsOk(draws)
    requires Truthy(Get(fields, "type")) && Truthy(Get(fields, "content"))
    requires Hashable(Get(fields, "type"))
    requires !(Get(fields, "type").Str? && Get(fields, "type").s in DetectionModels)
    ensures AnalyzeContent(Some(Object(fields)), draws) == BadRequest(UnsupportedError)
  {
    DetectionModelsShape();
  }

  /**
    A request succeeds exactly when its body is an object whose `type` is a
    supported name and whose `content` is truthy, and then the response is
    the generator's analysis of that type.
  */
  lemma AcceptedExactly(body: Option<Json>, draws: AnalysisDraws)
    requires DrawsOk(draws)
    ensures AnalyzeContent(body, draws).Ok? <==>
      body.Some? && body.value.Object?
      && Get(body.value.fields, "type").Str? && Get(body.value.fields, "type").s in DetectionModels
      && Truthy(Get(body.value.fields, "content"))
    ensures AnalyzeContent(body, draws).Ok? ==>
      AnalyzeContent(body, draws).analysis == GenerateAnalysis(Get(body.value.fields, "type").s, draws)
  {
    DetectionModelsShape();
  }

  /** The analysis route never responds with a HIGH or MEDIUM threat level. */
  lemma AcceptedAlwaysLow(body: Option<Json>, draws: AnalysisDraws)
    requires DrawsOk(draws)
    ensures AnalyzeContent(body, draws).Ok? ==>
      AnalyzeContent(body, draws).analysis.threatLevel == "LOW"
      && AnalyzeContent(body, draws).analysis.recommendations == AppearsAuthentic
  {
    if AnalyzeContent(body, draws).Ok? {
      AnalysisAlwaysLow(Get(body.value.fields, "type").s, draws);
    }
  }

  /** `{"type": "text", "content": "hello"}` is answered with the text model's analysis. */
  lemma TextRequestExample(draws: AnalysisDraws)
    requires DrawsOk(draws)
    ensures var r := AnalyzeContent(Some(Object(map["type" := Str("text"), "content" := Str("hello")])), draws);
      && StatusCode(r) == 200
      && r.analysis.modelUsed == "Linguistic Pattern Analyzer v3.2"
      && r.analysis.modelConfidence == 0.94
      && 10.0 <= r.analysis.confidence <= 99.0
      && r.analysis.analysis == Findings["text"]
  {
  }

  /** `{"type": ["text"], "content": "x"}` raises inside the handler: a list cannot be a dict key. */
  lemma ListTypeExample(draws: AnalysisDraws)
    requires DrawsOk(draws)
    ensures AnalyzeContent(Some(Object(map["type" := Array([Str("text")]), "content" := Str("x")])), draws) == ServerError
  {
  }

  /** `get_threat_data`: the threat table, unchanged. */
  function GetThreatData(): (t: ThreatData)
    ensures t.activeThreats == 2847 && t.deepfakesFound == 156
    ensures t.accuracyRate == 98.7 && t.verifiedSources == 45000
    ensures t.threatsByRegion == [("North America", 1247), ("Europe", 892), ("Asia", 456), ("Other", 252)]
    ensures t.threatsByType == [("Deepfake Videos", 45), ("AI-Generated Text", 38), ("Synthetic Audio", 28),
      ("Manipulated Images", 25), ("Other", 20)]
    ensures Total(t.threatsByRegion) == t.activeThreats
    ensures Total(t.threatsByType) == t.deepfakesFound
  {
    BreakdownsAddUp();
    Threats
  }
}
