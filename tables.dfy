/**
  The backend's two global tables: the threat-intelligence figures served
  as they are, and one detection model descriptor per supported content
  type. Both are read and never changed.
*/
module Tables {

  datatype ThreatData = ThreatData(
    activeThreats: nat,
    deepfakesFound: nat,
    accuracyRate: real,
    verifiedSources: nat,
    threatsByRegion: seq<(string, nat)>,
    threatsByType: seq<(string, nat)>)

  const Threats: ThreatData := ThreatData(
    2847, 156, 98.7, 45000,
    [("North America", 1247), ("Europe", 892), ("Asia", 456), ("Other", 252)],
    [("Deepfake Videos", 45), ("AI-Generated Text", 38), ("Synthetic Audio", 28),
     ("Manipulated Images", 25), ("Other", 20)])

  /** The count filed under a name in a breakdown; like a dict subscript, it needs the name to be present. */
  function Lookup(breakdown: seq<(string, nat)>, name: string): (r: nat)
    requires exists i :: 0 <= i < |breakdown| && breakdown[i].0 == name
    ensures forall i ::
      (0 <= i < |breakdown| && breakdown[i].0 == name && forall j :: 0 <= j < i ==> breakdown[j].0 != name)
      ==> r == breakdown[i].1
  {
    if breakdown[0].0 == name then breakdown[0].1
    else
      var i :| 0 <= i < |breakdown| && breakdown[i].0 == name;
      assert breakdown[1..][i - 1].0 == name;
      Lookup(breakdown[1..], name)
  }

  function Total(breakdown: seq<(string, nat)>): nat {
    if breakdown == [] then 0 else breakdown[0].1 + Total(breakdown[1..])
  }

  /** The per-region and per-type breakdowns add up to the headline counts. */
  lemma BreakdownsAddUp()
    ensures Total(Threats.threatsByRegion) == Threats.activeThreats
    ensures Total(Threats.threatsByType) == Threats.deepfakesFound
  {
  }

  datatype DetectionModel = DetectionModel(name: string, confidence: real, features: seq<string>)

  /** The descriptor of each supported content type. */
  const DetectionModels: map<string, DetectionModel> := map[
    "text" := DetectionModel("Linguistic Pattern Analyzer v3.2", 0.94,
      ["Perplexity Analysis", "Burstiness Detection", "Semantic Coherence", "GPT Fingerprinting"]),
    "image" := DetectionModel("Pixel Forensics Engine v2.8", 0.91,
      ["GAN Artifact Detection", "Noise Pattern Analysis", "Compression Artifacts", "Color Space Analysis"]),
    "audio" := DetectionModel("Spectral Analysis Core v1.9", 0.89,
      ["Voice Cloning Detection", "Spectral Anomalies", "Temporal Inconsistencies", "Acoustic Fingerprinting"]),
    "video" := DetectionModel("Temporal Consistency Checker v4.1", 0.92,
      ["Frame-Level Analysis", "Motion Vector Analysis", "Face Swap Detection", "Temporal Artifacts"])
  ]

  /** Exactly four content types are supported, each with four features and a base confidence of at least 0.89. */
  lemma DetectionModelsShape()
    ensures DetectionModels.Keys == {"text", "image", "audio", "video"} && |DetectionModels| == 4
    ensures forall t :: t in DetectionModels ==>
      0.89 <= DetectionModels[t].confidence <= 0.94 && |DetectionModels[t].features| == 4
  {
    assert |DetectionModels.Keys| == |{"text", "image", "audio", "video"}|;
  }
}
