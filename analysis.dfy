/**
  The mock analysis generator: a confidence drawn around the content type's
  base confidence and clamped, a three-way threat level, canned findings,
  the cosmetic digests and the canned recommendations.
*/
module Analysis {
  import opened Tables
  import opened Clock
  import opened PyNum
  import opened PyRandom

  function Min(a: real, b: real): real {
    if a <= b then a else b
  }

  function Max(a: real, b: real): real {
    if a >= b then a else b
  }

  /** `max(0.1, min(0.99, x))`. */
  function Clamp(x: real): (r: real)
    ensures 0.1 <= r <= 0.99
    ensures 0.1 <= x <= 0.99 ==> r == x
    ensures x < 0.1 ==> r == 0.1
    ensures x > 0.99 ==> r == 0.99
  {
    Max(0.1, Min(0.99, x))
  }

  lemma ClampMonotone(x: real, y: real)
    requires x <= y
    ensures Clamp(x) <= Clamp(y)
  {
  }

  lemma ClampIdempotent(x: real)
    ensures Clamp(Clamp(x)) == Clamp(x)
  {
  }

  datatype ThreatLevel = High | Medium | Low

  /** The threat level of a confidence: below 0.3 HIGH, below 0.7 MEDIUM, otherwise LOW. */
  function Classify(confidence: real): (t: ThreatLevel)
    ensures t == High <==> confidence < 0.3
    ensures t == Medium <==> 0.3 <= confidence < 0.7
    ensures t == Low <==> 0.7 <= confidence
  {
    if confidence < 0.3 then High else if confidence < 0.7 then Medium else Low
  }

  function Label(t: ThreatLevel): (s: string)
    ensures s in {"HIGH", "MEDIUM", "LOW"}
  {
    match t
    case High => "HIGH"
    case Medium => "MEDIUM"
    case Low => "LOW"
  }

  /** Different threat levels get different labels, so a label names its level. */
  lemma LabelsDistinct(t1: ThreatLevel, t2: ThreatLevel)
    ensures Label(t1) == Label(t2) <==> t1 == t2
  {
  }

  const StrongIndicators: seq<string> := [
    "Content shows strong indicators of synthetic generation",
    "Recommend immediate verification from trusted sources",
    "Consider flagging for manual review",
    "Alert security team for potential disinformation campaign"
  ]

  const MixedSignals: seq<string> := [
    "Content shows mixed signals - requires further analysis",
    "Cross-reference with known fact-checking databases",
    "Consider additional verification methods",
    "Monitor for similar content patterns"
  ]

  const AppearsAuthentic: seq<string> := [
    "Content appears to be authentic",
    "Continue monitoring for any updates",
    "Maintain standard verification protocols",
    "No immediate action required"
  ]

  /** The advice list that goes with each threat level. */
  function AdviceFor(t: ThreatLevel): seq<string> {
    match t
    case High => StrongIndicators
    case Medium => MixedSignals
    case Low => AppearsAuthentic
  }

  /** `generate_recommendations`: chosen by the confidence alone; the content type is not consulted. */
  function Recommendations(confidence: real, contentType: string): (r: seq<string>)
    ensures |r| == 4
    ensures r in {StrongIndicators, MixedSignals, AppearsAuthentic}
  {
    if confidence < 0.3 then StrongIndicators
    else if confidence < 0.7 then MixedSignals
    else AppearsAuthentic
  }

  /** The recommendation buckets are the threat-level buckets. */
  lemma RecommendationsFollowThreatLevel(confidence: real, contentType: string)
    ensures Recommendations(confidence, contentType) == AdviceFor(Classify(confidence))
  {
  }

  /** Two confidences get the same recommendations exactly when they get the same threat level, whatever the content types. */
  lemma RecommendationsDetermineThreatLevel(c1: real, c2: real, type1: string, type2: string)
    ensures Recommendations(c1, type1) == Recommendations(c2, type2) <==> Classify(c1) == Classify(c2)
  {
    assert StrongIndicators[0] != MixedSignals[0];
    assert StrongIndicators[0] != AppearsAuthentic[0];
    assert MixedSignals[0] != AppearsAuthentic[0];
  }

  /** The canned findings reported for each supported content type. */
  const Findings: map<string, seq<string>> := map[
    "text" := [
      "Linguistic patterns indicate 87% probability of AI generation",
      "Perplexity score: 23.4 (threshold: 15.0)",
      "Burstiness analysis shows uniform sentence structure",
      "Semantic coherence index: 0.73 (human average: 0.85)",
      "GPT-3.5 fingerprint detected with 92% confidence"
    ],
    "image" := [
      "GAN artifacts detected in 3 distinct regions",
      "Noise pattern analysis reveals synthetic generation markers",
      "Color space inconsistencies suggest AI manipulation",
      "Compression artifacts inconsistent with natural photography",
      "Face region shows 78% probability of deepfake generation"
    ],
    "audio" := [
      "Spectral analysis indicates voice cloning with 84% confidence",
      "Temporal inconsistencies detected in 12% of audio segments",
      "Acoustic fingerprint matches known TTS model patterns",
      "Voice characteristics show artificial modulation",
      "Background noise patterns suggest synthetic generation"
    ],
    "video" := [
      "Temporal frame analysis reveals 15 inconsistent segments",
      "Face swap artifacts detected in 8 frames",
      "Motion vector analysis shows unnatural movement patterns",
      "Lighting inconsistencies suggest post-processing manipulation",
      "Audio-visual synchronization anomalies detected"
    ]
  ]

  /** Every supported content type has five findings, and no other type has any. */
  lemma FindingsShape()
    ensures Findings.Keys == DetectionModels.Keys
    ensures forall t :: t in Findings ==> |Findings[t]| == 5
  {
  }

  predicate IsHexChar(c: char) {
    '0' <= c <= '9' || 'a' <= c <= 'f'
  }

  /** What `hexdigest()` of SHA-256 returns: 64 lower-case hexadecimal characters. */
  predicate IsHexDigest(s: string) {
    |s| == 64 && forall i :: 0 <= i < |s| ==> IsHexChar(s[i])
  }

  /** The displayed fingerprint: "SHA256: ", the first 16 digest characters, "...". */
  function Fingerprint(digest: string): (s: string)
    requires IsHexDigest(digest)
    ensures |s| == 27 && s[..8] == "SHA256: " && s[24..] == "..."
    ensures s[8..24] == digest[..16]
  {
    "SHA256: " + digest[..16] + "..."
  }

  /** The displayed verification hash: "0x", the first 16 digest characters, "...". */
  function VerificationTag(digest: string): (s: string)
    requires IsHexDigest(digest)
    ensures |s| == 21 && s[..2] == "0x" && s[18..] == "..."
    ensures s[2..18] == digest[..16]
  {
    "0x" + digest[..16] + "..."
  }

  /**
    What one analysis consumes from outside: the `random()` draw behind the
    variance, the SHA-256 hex digest of the content's text, the digest of
    that digest followed by a timestamp, and the clock reading stamped on
    the result.
  */
  datatype AnalysisDraws = AnalysisDraws(
    varianceUnit: real,
    contentDigest: string,
    verificationDigest: string,
    stamp: Instant)

  predicate DrawsOk(d: AnalysisDraws) {
    0.0 <= d.varianceUnit < 1.0 && IsHexDigest(d.contentDigest) && IsHexDigest(d.verificationDigest)
  }

  datatype AnalysisResult = AnalysisResult(
    confidence: real,
    authenticityScore: real,
    analysis: seq<string>,
    modelUsed: string,
    modelConfidence: real,
    featuresAnalyzed: seq<string>,
    digitalFingerprint: string,
    verificationHash: string,
    timestamp: Instant,
    threatLevel: string,
    recommendations: seq<string>)

  /** `random.uniform(-0.1, 0.1)`. */
  function Variance(unit: real): (v: real)
    requires 0.0 <= unit < 1.0
    ensures -0.1 <= v < 0.1
  {
    Uniform(-0.1, 0.1, unit)
  }

  /** The clamped confidence of one analysis. */
  function Confidence(contentType: string, unit: real): (c: real)
    requires contentType in DetectionModels && 0.0 <= unit < 1.0
    ensures 0.1 <= c <= 0.99
  {
    Clamp(DetectionModels[contentType].confidence + Variance(unit))
  }

  /** `round(confidence * 100, 1)`. */
  function Percent(confidence: real): real {
    Round(confidence * 100.0, 1)
  }

  /** A clamped confidence shows as a percentage between 10.0 and 99.0. */
  lemma PercentInRange(confidence: real)
    requires 0.1 <= confidence <= 0.99
    ensures 10.0 <= Percent(confidence) <= 99.0
  {
    assert Pow10(1) == 10;
    RoundWithin(confidence * 100.0, 1, 100, 990);
  }

  /** `generate_realistic_analysis`; the content itself enters only through its digest. */
  function GenerateAnalysis(contentType: string, draws: AnalysisDraws): (r: AnalysisResult)
    requires contentType in DetectionModels && DrawsOk(draws)
    ensures 10.0 <= r.confidence <= 99.0 && r.authenticityScore == r.confidence
    ensures r.confidence == Percent(Confidence(contentType, draws.varianceUnit))
    ensures r.threatLevel == Label(Classify(Confidence(contentType, draws.varianceUnit)))
    ensures r.analysis == Findings[contentType] && |r.analysis| == 5
    ensures r.modelUsed == DetectionModels[contentType].name
    ensures r.modelConfidence == DetectionModels[contentType].confidence
    ensures r.featuresAnalyzed == DetectionModels[contentType].features
    ensures |r.digitalFingerprint| == 27 && r.digitalFingerprint[..8] == "SHA256: "
    ensures r.digitalFingerprint[8..24] == draws.contentDigest[..16] && r.digitalFingerprint[24..] == "..."
    ensures |r.verificationHash| == 21 && r.verificationHash[..2] == "0x"
    ensures r.verificationHash[2..18] == draws.verificationDigest[..16] && r.verificationHash[18..] == "..."
    ensures r.timestamp == draws.stamp
    ensures r.threatLevel == "HIGH" <==> r.recommendations == StrongIndicators
    ensures r.threatLevel == "MEDIUM" <==> r.recommendations == MixedSignals
    ensures r.threatLevel == "LOW" <==> r.recommendations == AppearsAuthentic
  {
    var model := DetectionModels[contentType];
    var confidence := Confidence(contentType, draws.varianceUnit);
    PercentInRange(confidence);
    FindingsShape();
    RecommendationsDetermineThreatLevel(confidence, confidence, contentType, contentType);
    AnalysisResult(
      Percent(confidence),
      Percent(confidence),
      Findings[contentType],
      model.name,
      model.confidence,
      model.features,
      Fingerprint(draws.contentDigest),
      VerificationTag(draws.verificationDigest),
      draws.stamp,
      Label(Classify(confidence)),
      Recommendations(confidence, contentType))
  }

  /** With a supported type's base confidence and any variance in [-0.1, 0.1], the threat level is LOW. */
  lemma LowForEveryVariance(contentType: string, variance: real)
    requires contentType in DetectionModels && -0.1 <= variance <= 0.1
    ensures DetectionModels[contentType].confidence + variance >= 0.79
    ensures Classify(Clamp(DetectionModels[contentType].confidence + variance)) == Low
  {
    DetectionModelsShape();
    ClampMonotone(0.79, DetectionModels[contentType].confidence + variance);
  }

  /** Every analysis the generator can produce is labelled LOW and carries the "appears to be authentic" advice. */
  lemma AnalysisAlwaysLow(contentType: string, draws: AnalysisDraws)
    requires contentType in DetectionModels && DrawsOk(draws)
    ensures GenerateAnalysis(contentType, draws).threatLevel == "LOW"
    ensures GenerateAnalysis(contentType, draws).recommendations == AppearsAuthentic
    ensures 79.0 <= GenerateAnalysis(contentType, draws).confidence <= 99.0
  {
    var variance := Variance(draws.varianceUnit);
    LowForEveryVariance(contentType, variance);
    var c := Confidence(contentType, draws.varianceUnit);
    ClampMonotone(0.79, DetectionModels[contentType].confidence + variance);
    assert 0.79 <= c <= 0.99;
    assert Pow10(1) == 10;
    RoundWithin(c * 100.0, 1, 790, 990);
  }
}
